/**
 The capacity of a host: a spawner counts worker documents before it takes a command from the queue (actors/spawner.py,
 Spawner.run, get_tot_workers, overloaded), and adds at most one worker for that command (actors/docker_utils.py,
 run_worker).

 It counts the documents with the host id of its configuration file, but the documents of its own workers carry the id
 of the environment variable SPAWNER_HOST_ID when that is set.  The two are the fields `counts` and `tags`.
 */
module SpawnerCapacity {
  import opened Options
  import opened WorkerRecords
  import Sets

  type Docs = map<string, Record>

  datatype Phase = Checking | Accepting | Processing

  datatype Spawner = Spawner(counts: string, tags: string, phase: Phase)

  datatype State = State(docs: Docs, spawners: seq<Spawner>)

  /**
   Outside stands for everything that other processes do to the documents between two steps: requests, status
   updates, deletions, stamps.  Only add_worker sets a host id.
   */
  datatype Action =
    | Check(spawner: nat)
    | Take(spawner: nat)
    | AddWorker(spawner: nat, key: string)
    | GiveUp(spawner: nat)
    | Outside(docs: Docs)

  predicate RunsOn(docs: Docs, key: string, host: string) {
    key in docs && docs[key].hostId == Some(host)
  }

  function Hosted(docs: Docs, host: string): nat {
    |set key | key in docs && RunsOn(docs, key, host)|
  }

  ghost predicate NoNewHosts(before: Docs, after: Docs) {
    forall key, host :: RunsOn(after, key, host) ==> RunsOn(before, key, host)
  }

  predicate InPhase(s: State, i: nat, phase: Phase) {
    i < |s.spawners| && s.spawners[i].phase == phase
  }

  ghost predicate Enabled(s: State, a: Action) {
    match a
    case Check(i) => InPhase(s, i, Checking)
    case Take(i) => InPhase(s, i, Accepting)
    case AddWorker(i, _) => InPhase(s, i, Processing)
    case GiveUp(i) => i < |s.spawners|
    case Outside(docs) => NoNewHosts(s.docs, docs)
  }

  function Enter(s: State, i: nat, phase: Phase): State
    requires i < |s.spawners|
  {
    s.(spawners := s.spawners[i := s.spawners[i].(phase := phase)])
  }

  function Lookup(docs: Docs, key: string): Option<Record> {
    if key in docs then Some(docs[key]) else None
  }

  function Step(maxWorkers: nat, s: State, a: Action): State
    requires !a.Outside? ==> a.spawner < |s.spawners|
  {
    match a
    case Check(i) => if Hosted(s.docs, s.spawners[i].counts) >= maxWorkers then s else Enter(s, i, Accepting)
    case Take(i) => Enter(s, i, Processing)
    case AddWorker(i, key) =>
      Enter(s, i, Checking).(docs := s.docs[key := Add(Lookup(s.docs, key), s.spawners[i].tags).value])
    case GiveUp(i) => Enter(s, i, Checking)
    case Outside(docs) => s.(docs := docs)
  }

  ghost predicate CanRun(maxWorkers: nat, s: State, actions: seq<Action>)
    decreases |actions|
  {
    actions == [] ||
    (Enabled(s, actions[0]) && CanRun(maxWorkers, Step(maxWorkers, s, actions[0]), actions[1..]))
  }

  ghost function Run(maxWorkers: nat, s: State, actions: seq<Action>): State
    requires CanRun(maxWorkers, s, actions)
    decreases |actions|
  {
    if actions == [] then s else Run(maxWorkers, Step(maxWorkers, s, actions[0]), actions[1..])
  }

  /** The spawners whose workers carry a host's id, and those of them that are past the check and may still add one. */
  function SpawnersOn(spawners: seq<Spawner>, host: string): nat {
    if spawners == [] then 0
    else (if spawners[0].tags == host then 1 else 0) + SpawnersOn(spawners[1..], host)
  }

  function Admitted(spawners: seq<Spawner>, host: string): nat {
    if spawners == [] then 0
    else (if spawners[0].tags == host && spawners[0].phase != Checking then 1 else 0) + Admitted(spawners[1..], host)
  }

  lemma {:induction false} PhaseChange(spawners: seq<Spawner>, i: nat, phase: Phase, host: string)
    requires i < |spawners|
    ensures var changed := spawners[i := spawners[i].(phase := phase)];
            var counts := (p: Phase) => if spawners[i].tags == host && p != Checking then 1 else 0;
            SpawnersOn(changed, host) == SpawnersOn(spawners, host) &&
            Admitted(changed, host) == Admitted(spawners, host) - counts(spawners[i].phase) + counts(phase)
    decreases |spawners|
  {
    var changed := spawners[i := spawners[i].(phase := phase)];
    if i > 0 {
      assert changed[1..] == spawners[1..][i-1 := spawners[1..][i-1].(phase := phase)];
      PhaseChange(spawners[1..], i - 1, phase, host);
    }
  }

  /** A spawner that gives its command up no longer counts as admitted, and may take the next one. */
  lemma GivingUpFreesPlace(maxWorkers: nat, s: State, i: nat, host: string)
    requires i < |s.spawners| && s.spawners[i].tags == host && s.spawners[i].phase != Checking
    ensures var t := Step(maxWorkers, s, GiveUp(i));
            Admitted(t.spawners, host) == Admitted(s.spawners, host) - 1 && t.docs == s.docs && Enabled(t, Check(i))
  {
    PhaseChange(s.spawners, i, Checking, host);
  }

  lemma {:induction false} AdmittedAreSpawners(spawners: seq<Spawner>, host: string)
    ensures Admitted(spawners, host) <= SpawnersOn(spawners, host)
    decreases |spawners|
  {
    if spawners != [] {
      AdmittedAreSpawners(spawners[1..], host);
    }
  }

  lemma {:induction false} CheckingIsNotAdmitted(spawners: seq<Spawner>, i: nat, host: string)
    requires i < |spawners| && spawners[i].tags == host && spawners[i].phase == Checking
    ensures Admitted(spawners, host) < SpawnersOn(spawners, host)
    decreases |spawners|
  {
    if i > 0 {
      CheckingIsNotAdmitted(spawners[1..], i - 1, host);
    } else {
      AdmittedAreSpawners(spawners[1..], host);
    }
  }

  /** Every spawner whose workers carry the host's id also counts that host's workers. */
  predicate TaggersCount(spawners: seq<Spawner>, host: string) {
    forall i :: 0 <= i < |spawners| && spawners[i].tags == host ==> spawners[i].counts == host
  }

  lemma FewerHosted(before: Docs, after: Docs, host: string)
    requires forall key :: RunsOn(after, key, host) ==> RunsOn(before, key, host)
    ensures Hosted(after, host) <= Hosted(before, host)
  {
    Sets.SubsetIsSmaller(set key | key in after && RunsOn(after, key, host),
                         set key | key in before && RunsOn(before, key, host));
  }

  lemma AddHere(docs: Docs, after: Docs, key: string, host: string)
    requires RunsOn(after, key, host) && forall k :: k != key ==> (RunsOn(after, k, host) <==> RunsOn(docs, k, host))
    ensures Hosted(after, host) <= Hosted(docs, host) + 1
    ensures key !in docs ==> Hosted(after, host) == Hosted(docs, host) + 1
  {
    var hosted := set k | k in docs && RunsOn(docs, k, host);
    var hostedAfter := set k | k in after && RunsOn(after, k, host);
    assert hostedAfter == hosted + {key};
  }

  lemma AddHosts(docs: Docs, key: string, added: string, host: string)
    ensures var after := docs[key := Add(Lookup(docs, key), added).value];
            Hosted(after, host) <= Hosted(docs, host) + (if host == added then 1 else 0) &&
            (key !in docs && host == added ==> Hosted(after, host) == Hosted(docs, host) + 1)
  {
    var after := docs[key := Add(Lookup(docs, key), added).value];
    assert after[key].hostId == Some(added);
    if host == added {
      AddHere(docs, after, key, host);
    } else {
      FewerHosted(docs, after, host);
    }
  }

  /** The documents of a host and the spawners that may still add one. */
  function Bound(maxWorkers: nat, spawners: nat): nat {
    if spawners == 0 || maxWorkers == 0 then 0 else maxWorkers + spawners - 1
  }

  ghost predicate Inv(maxWorkers: nat, s: State, host: string) {
    (maxWorkers == 0 || TaggersCount(s.spawners, host)) &&
    Hosted(s.docs, host) + Admitted(s.spawners, host) <= Bound(maxWorkers, SpawnersOn(s.spawners, host))
  }

  lemma StepKeepsInv(maxWorkers: nat, s: State, a: Action, host: string)
    requires Enabled(s, a) && Inv(maxWorkers, s, host)
    ensures Inv(maxWorkers, Step(maxWorkers, s, a), host)
    ensures SpawnersOn(Step(maxWorkers, s, a).spawners, host) == SpawnersOn(s.spawners, host)
  {
    match a
    case Check(i) =>
      PhaseChange(s.spawners, i, Accepting, host);
      if s.spawners[i].tags == host {
        CheckingIsNotAdmitted(s.spawners, i, host);
      }
    case Take(i) => PhaseChange(s.spawners, i, Processing, host);
    case AddWorker(i, key) =>
      PhaseChange(s.spawners, i, Checking, host);
      AddHosts(s.docs, key, s.spawners[i].tags, host);
    case GiveUp(i) => PhaseChange(s.spawners, i, Checking, host);
    case Outside(docs) => FewerHosted(s.docs, docs, host);
  }

  lemma {:induction false} RunKeepsInv(maxWorkers: nat, s: State, actions: seq<Action>, host: string)
    requires CanRun(maxWorkers, s, actions) && Inv(maxWorkers, s, host)
    ensures var end := Run(maxWorkers, s, actions);
            Inv(maxWorkers, end, host) && SpawnersOn(end.spawners, host) == SpawnersOn(s.spawners, host)
    decreases |actions|
  {
    if actions != [] {
      StepKeepsInv(maxWorkers, s, actions[0], host);
      RunKeepsInv(maxWorkers, Step(maxWorkers, s, actions[0]), actions[1..], host);
    }
  }

  /** Spawners with their two ids each, before any of them has done anything. */
  function Start(ids: seq<(string, string)>): State {
    State(map[], seq(|ids|, i requires 0 <= i < |ids| => Spawner(ids[i].0, ids[i].1, Checking)))
  }

  lemma {:induction false} NoneAdmitted(spawners: seq<Spawner>, host: string)
    requires forall i :: 0 <= i < |spawners| ==> spawners[i].phase == Checking
    ensures Admitted(spawners, host) == 0
    decreases |spawners|
  {
    if spawners != [] {
      NoneAdmitted(spawners[1..], host);
    }
  }

  /**
   In every interleaving, with arbitrary deletions: when the spawners of a host count its workers, the host has no more
   worker documents than the limit plus one for each further spawner; with one spawner, no more than the limit.
   */
  lemma CapacityIsBounded(maxWorkers: nat, ids: seq<(string, string)>, actions: seq<Action>, host: string)
    requires CanRun(maxWorkers, Start(ids), actions)
    requires maxWorkers == 0 || TaggersCount(Start(ids).spawners, host)
    ensures Hosted(Run(maxWorkers, Start(ids), actions).docs, host)
         <= Bound(maxWorkers, SpawnersOn(Start(ids).spawners, host))
  {
    NoneAdmitted(Start(ids).spawners, host);
    RunKeepsInv(maxWorkers, Start(ids), actions, host);
  }

  // ---------------------------------------------------------------------------------------------
  // The bound is reached
  // ---------------------------------------------------------------------------------------------

  /** Some run leads from one state to the other. */
  ghost predicate Reaches(maxWorkers: nat, s: State, t: State) {
    exists actions :: CanRun(maxWorkers, s, actions) && Run(maxWorkers, s, actions) == t
  }

  lemma {:induction false} RunsConcatenate(maxWorkers: nat, s: State, a: seq<Action>, b: seq<Action>)
    requires CanRun(maxWorkers, s, a) && CanRun(maxWorkers, Run(maxWorkers, s, a), b)
    ensures CanRun(maxWorkers, s, a + b)
    ensures Run(maxWorkers, s, a + b) == Run(maxWorkers, Run(maxWorkers, s, a), b)
    decreases |a|
  {
    if a == [] {
      assert a + b == b;
    } else {
      assert (a + b)[1..] == a[1..] + b;
      RunsConcatenate(maxWorkers, Step(maxWorkers, s, a[0]), a[1..], b);
    }
  }

  lemma Stay(maxWorkers: nat, s: State)
    ensures Reaches(maxWorkers, s, s)
  {
    assert CanRun(maxWorkers, s, []) && Run(maxWorkers, s, []) == s;
  }

  lemma Go(maxWorkers: nat, s: State, t: State, a: Action)
    requires Reaches(maxWorkers, s, t) && Enabled(t, a)
    ensures Reaches(maxWorkers, s, Step(maxWorkers, t, a))
  {
    var actions :| CanRun(maxWorkers, s, actions) && Run(maxWorkers, s, actions) == t;
    var next := Step(maxWorkers, t, a);
    assert [a][1..] == [];
    assert CanRun(maxWorkers, next, []) && Run(maxWorkers, next, []) == next;
    assert CanRun(maxWorkers, t, [a]) && Run(maxWorkers, t, [a]) == next;
    RunsConcatenate(maxWorkers, s, actions, [a]);
  }

  function Ids(n: nat): seq<char> {
    seq(n, _ => 'w')
  }

  /** A number of workers on the host, under different keys. */
  function Workers(n: nat, host: string): Docs {
    if n == 0 then map[] else Workers(n - 1, host)[Ids(n) := BLANK.(status := Some(Ready), hostId := Some(host))]
  }

  lemma {:induction false} WorkersAreHosted(n: nat, host: string)
    ensures Hosted(Workers(n, host), host) == n
    ensures forall key :: key in Workers(n, host) ==> |key| <= n
  {
    if n > 0 {
      WorkersAreHosted(n - 1, host);
      AddHosts(Workers(n - 1, host), Ids(n), host, host);
    } else {
      var none := Workers(n, host);
      assert (set key | key in none && RunsOn(none, key, host)) == {};
    }
  }

  /** So many spawners of one host have passed the check and hold a command, and the others have not checked yet. */
  function Crowd(n: nat, admitted: nat, host: string): seq<Spawner>
    requires admitted <= n
  {
    seq(n, i => Spawner(host, host, if i < admitted then Processing else Checking))
  }

  lemma {:induction false} FillUp(maxWorkers: nat, hosts: nat, host: string, n: nat)
    requires hosts >= 1 && n <= maxWorkers
    ensures Reaches(maxWorkers, State(map[], Crowd(hosts, 0, host)), State(Workers(n, host), Crowd(hosts, 0, host)))
    decreases n
  {
    var start := State(map[], Crowd(hosts, 0, host));
    if n == 0 {
      Stay(maxWorkers, start);
    } else {
      FillUp(maxWorkers, hosts, host, n - 1);
      WorkersAreHosted(n - 1, host);
      var s0 := State(Workers(n - 1, host), Crowd(hosts, 0, host));
      Go(maxWorkers, start, s0, Check(0));
      var s1 := Step(maxWorkers, s0, Check(0));
      Go(maxWorkers, start, s1, Take(0));
      var s2 := Step(maxWorkers, s1, Take(0));
      Go(maxWorkers, start, s2, AddWorker(0, Ids(n)));
      var s3 := Step(maxWorkers, s2, AddWorker(0, Ids(n)));
      assert s3.spawners == Crowd(hosts, 0, host);
    }
  }

  lemma {:induction false} AllAdmitted(maxWorkers: nat, start: State, hosts: nat, host: string, docs: Docs, n: nat)
    requires n <= hosts && Hosted(docs, host) < maxWorkers
    requires Reaches(maxWorkers, start, State(docs, Crowd(hosts, 0, host)))
    ensures Reaches(maxWorkers, start, State(docs, Crowd(hosts, n, host)))
    decreases n
  {
    if n > 0 {
      AllAdmitted(maxWorkers, start, hosts, host, docs, n - 1);
      var s0 := State(docs, Crowd(hosts, n - 1, host));
      Go(maxWorkers, start, s0, Check(n - 1));
      var s1 := Step(maxWorkers, s0, Check(n - 1));
      Go(maxWorkers, start, s1, Take(n - 1));
      assert Step(maxWorkers, s1, Take(n - 1)).spawners == Crowd(hosts, n, host);
    }
  }

  lemma {:induction false} AllAdd(maxWorkers: nat, start: State, hosts: nat, host: string, had: nat, n: nat)
    requires n <= hosts
    requires Reaches(maxWorkers, start, State(Workers(had, host), Crowd(hosts, hosts, host)))
    ensures Reaches(maxWorkers, start, State(Workers(had + n, host), Crowd(hosts, hosts - n, host)))
    decreases n
  {
    if n > 0 {
      AllAdd(maxWorkers, start, hosts, host, had, n - 1);
      WorkersAreHosted(had + n - 1, host);
      var s := State(Workers(had + n - 1, host), Crowd(hosts, hosts - (n - 1), host));
      var add := AddWorker(hosts - n, Ids(had + n));
      Go(maxWorkers, start, s, add);
      assert Ids(had + n) !in s.docs;
      assert Step(maxWorkers, s, add).spawners == Crowd(hosts, hosts - n, host);
    }
  }

  lemma BoundIsReached(maxWorkers: nat, spawners: nat, host: string)
    requires maxWorkers > 0 && spawners > 0
    ensures Reaches(maxWorkers, State(map[], Crowd(spawners, 0, host)),
                    State(Workers(maxWorkers - 1 + spawners, host), Crowd(spawners, 0, host)))
  {
    var start := State(map[], Crowd(spawners, 0, host));
    FillUp(maxWorkers, spawners, host, maxWorkers - 1);
    WorkersAreHosted(maxWorkers - 1, host);
    AllAdmitted(maxWorkers, start, spawners, host, Workers(maxWorkers - 1, host), spawners);
    AllAdd(maxWorkers, start, spawners, host, maxWorkers - 1, spawners);
  }

  /** For any limit and any number of spawners on a host, some run reaches the bound. */
  lemma CapacityBoundIsTight(maxWorkers: nat, spawners: nat, host: string)
    requires maxWorkers > 0 && spawners > 0
    ensures exists end :: Reaches(maxWorkers, Start(seq(spawners, _ => (host, host))), end) &&
              Hosted(end.docs, host) == Bound(maxWorkers, spawners)
  {
    var start := Start(seq(spawners, _ => (host, host)));
    assert start.spawners == Crowd(spawners, 0, host);
    BoundIsReached(maxWorkers, spawners, host);
    WorkersAreHosted(maxWorkers - 1 + spawners, host);
  }

  // ---------------------------------------------------------------------------------------------
  // Spawners that count one host and tag another
  // ---------------------------------------------------------------------------------------------

  lemma {:induction false} OnlyTagged(n: nat, tags: string, other: string)
    requires tags != other
    ensures Hosted(Workers(n, tags), other) == 0
    decreases n
  {
    var docs := Workers(n, tags);
    if n > 0 {
      OnlyTagged(n - 1, tags, other);
      FewerHosted(Workers(n - 1, tags), docs, other);
    } else {
      assert (set key | key in docs && RunsOn(docs, key, other)) == {};
    }
  }

  lemma AddOneMore(maxWorkers: nat, start: State, s: State, i: nat, key: string)
    requires Reaches(maxWorkers, start, s) && InPhase(s, i, Checking)
    requires Hosted(s.docs, s.spawners[i].counts) < maxWorkers
    ensures var docs := s.docs[key := Add(Lookup(s.docs, key), s.spawners[i].tags).value];
            Reaches(maxWorkers, start, s.(docs := docs))
  {
    Go(maxWorkers, start, s, Check(i));
    var s1 := Step(maxWorkers, s, Check(i));
    Go(maxWorkers, start, s1, Take(i));
    var s2 := Step(maxWorkers, s1, Take(i));
    Go(maxWorkers, start, s2, AddWorker(i, key));
    assert Step(maxWorkers, s2, AddWorker(i, key)).spawners == s.spawners;
  }

  /** One such spawner counts nothing for ever: its check passes before every one of its additions. */
  lemma {:induction false} NeverOverloaded(maxWorkers: nat, start: State, i: nat, n: nat)
    requires maxWorkers > 0 && start.docs == map[] && InPhase(start, i, Checking)
    requires start.spawners[i].counts != start.spawners[i].tags
    ensures Reaches(maxWorkers, start, start.(docs := Workers(n, start.spawners[i].tags)))
    decreases n
  {
    if n == 0 {
      Stay(maxWorkers, start);
      assert start.(docs := Workers(0, start.spawners[i].tags)) == start;
    } else {
      var tags := start.spawners[i].tags;
      NeverOverloaded(maxWorkers, start, i, n - 1);
      OnlyTagged(n - 1, tags, start.spawners[i].counts);
      WorkersAreHosted(n - 1, tags);
      var s0 := start.(docs := Workers(n - 1, tags));
      AddOneMore(maxWorkers, start, s0, i, Ids(n));
      assert Lookup(s0.docs, Ids(n)) == None;
    }
  }

  /** No run leads to more than so many workers of a host. */
  ghost predicate BoundedBy(maxWorkers: nat, start: State, host: string, bound: nat) {
    forall end :: Reaches(maxWorkers, start, end) ==> Hosted(end.docs, host) <= bound
  }

  /**
   For any spawners with any ids, the workers of a host are bounded over all runs exactly when nothing may start or
   every spawner whose workers carry the host's id also counts that id.
   */
  lemma CapacityBoundedIff(maxWorkers: nat, ids: seq<(string, string)>, host: string)
    ensures (exists bound: nat :: BoundedBy(maxWorkers, Start(ids), host, bound))
       <==> maxWorkers == 0 || TaggersCount(Start(ids).spawners, host)
  {
    var start := Start(ids);
    if maxWorkers == 0 || TaggersCount(start.spawners, host) {
      var bound := Bound(maxWorkers, SpawnersOn(start.spawners, host));
      forall end | Reaches(maxWorkers, start, end) ensures Hosted(end.docs, host) <= bound {
        var actions :| CanRun(maxWorkers, start, actions) && Run(maxWorkers, start, actions) == end;
        CapacityIsBounded(maxWorkers, ids, actions, host);
      }
      assert BoundedBy(maxWorkers, start, host, bound);
    } else {
      var i: nat :| i < |start.spawners| && start.spawners[i].tags == host && start.spawners[i].counts != host;
      forall bound: nat ensures !BoundedBy(maxWorkers, start, host, bound) {
        NeverOverloaded(maxWorkers, start, i, bound + 1);
        WorkersAreHosted(bound + 1, host);
      }
    }
  }

  // ---------------------------------------------------------------------------------------------
  // The spawner object
  // ---------------------------------------------------------------------------------------------

  class HostSpawner {
    const store: WorkersStore
    const hostId: string         // of the configuration
    const workerHostId: string   // of the environment, or else of the configuration
    const maxWorkers: nat
    var totWorkers: nat

    constructor (store: WorkersStore, configured: string, environment: Option<string>, maxWorkers: nat)
      ensures this.store == store && this.maxWorkers == maxWorkers && totWorkers == 0 && hostId == configured
      ensures workerHostId == if environment.Some? then environment.value else configured
    {
      this.store, this.maxWorkers, totWorkers, hostId := store, maxWorkers, 0, configured;
      workerHostId := if environment.Some? then environment.value else configured;
    }

    /** Counts the host's documents one by one; a document without a host id is skipped. */
    method GetTotWorkers() returns (total: nat)
      modifies this
      ensures total == totWorkers == Hosted(store.docs, hostId)
    {
      totWorkers := 0;
      var rest := store.docs.Keys;
      while rest != {}
        invariant rest <= store.docs.Keys
        invariant totWorkers == |set key | key in store.docs && key !in rest && RunsOn(store.docs, key, hostId)|
        decreases rest
      {
        var key :| key in rest;
        ghost var counted := set k | k in store.docs && k !in rest && RunsOn(store.docs, k, hostId);
        ghost var after := set k | k in store.docs && k !in rest - {key} && RunsOn(store.docs, k, hostId);
        if store.docs[key].hostId == Some(hostId) {
          totWorkers := totWorkers + 1;
          assert after == counted + {key};
        } else {
          assert after == counted;
        }
        rest := rest - {key};
      }
      assert (set key | key in store.docs && key !in rest && RunsOn(store.docs, key, hostId))
          == (set key | key in store.docs && RunsOn(store.docs, key, hostId));
      total := totWorkers;
    }

    method Overloaded() returns (overloaded: bool)
      modifies this
      ensures overloaded <==> Hosted(store.docs, hostId) >= maxWorkers
    {
      var total := GetTotWorkers();
      overloaded := total >= maxWorkers;
    }

    /** One round of the loop for a command that starts a worker: check, take the command, add the worker. */
    method Round(key: string) returns (taken: bool)
      modifies this, store
      ensures taken <==> Hosted(old(store.docs), hostId) < maxWorkers
      ensures taken ==> RunsOn(store.docs, key, workerHostId)
      ensures store.docs - {key} == old(store.docs) - {key} && (!taken ==> store.docs == old(store.docs))
      ensures taken && workerHostId == hostId ==> Hosted(store.docs, hostId) <= maxWorkers
      ensures workerHostId != hostId ==> Hosted(store.docs, hostId) <= Hosted(old(store.docs), hostId)
    {
      var overloaded := Overloaded();
      if overloaded {
        return false;
      }
      AddHosts(store.docs, key, workerHostId, hostId);
      store.AddWorker(key, workerHostId);
      return true;
    }
  }
}

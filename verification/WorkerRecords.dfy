/**
 The worker documents of the workers store and the writes that the platform makes to one of them
 (actors/models.py, class Worker).  Every write is one atomic document update.
 */
module WorkerRecords {
  import opened Options

  datatype Status =
    | Requested | SpawnerSetup | PullingImage | CreatingContainer | UpdatingStore
    | Ready | Busy | ShutdownRequested | ShuttingDown

  /** The fields of a worker document that the protocol reads.  A field may be missing. */
  datatype Record = Record(actorId: Option<string>, status: Option<Status>, hostId: Option<string>)

  const BLANK := Record(None, None, None)

  /** A document that get_workers returns: the query filters on actor_id. */
  predicate Visible(rec: Option<Record>) {
    rec.Some? && rec.value.actorId.Some?
  }

  /** The document a write lands on when missing documents are created by the write. */
  function Upsert(rec: Option<Record>): Record {
    if rec.Some? then rec.value else BLANK
  }

  /** The document written by request_worker, merged into whatever is there. */
  function Request(rec: Option<Record>, actor: string): Option<Record> {
    Some(Upsert(rec).(actorId := Some(actor), status := Some(Requested)))
  }

  /** The document written by add_worker.  It carries no actor_id, so that field stays as it was. */
  function Add(rec: Option<Record>, host: string): Option<Record> {
    Some(Upsert(rec).(status := Some(Ready), hostId := Some(host)))
  }

  /** A time stamp written by path: it touches no field of the model, but it creates a missing document. */
  function Stamp(rec: Option<Record>): Option<Record> {
    Some(Upsert(rec))
  }

  predicate IsShutdownStatus(s: Status) {
    s == ShutdownRequested || s == ShuttingDown
  }

  /** An entry of the transition table: one or two predecessors, the second null when there is only one. */
  datatype Predecessors = Predecessors(first: Option<Status>, second: Option<Status>)

  /** The transition table; looking up a status without an entry raises. */
  function ValidFrom(target: Status): Option<Predecessors> {
    match target
    case SpawnerSetup => Some(Predecessors(Some(Requested), None))
    case PullingImage => Some(Predecessors(Some(SpawnerSetup), None))
    case CreatingContainer => Some(Predecessors(Some(PullingImage), None))
    case UpdatingStore => Some(Predecessors(Some(CreatingContainer), None))
    case Ready => Some(Predecessors(Some(UpdatingStore), Some(Busy)))
    case Busy => Some(Predecessors(Some(Ready), None))
    case _ => None
  }

  /**
   Whether the update filter matches a document.  A null second predecessor is compared like any other value,
   and the database lets null match a document without a status.
   */
  predicate FilterMatches(rec: Record, target: Status) {
    var valid := ValidFrom(target);
    valid.Some? && (rec.status == valid.value.first || rec.status == valid.value.second)
  }

  function UpdateStatus(rec: Option<Record>, target: Status): Option<Record> {
    if IsShutdownStatus(target) then
      Some(Upsert(rec).(status := Some(target)))
    else if rec.Some? && FilterMatches(rec.value, target) then
      Some(rec.value.(status := Some(target)))
    else
      rec
  }

  /** The documented transition graph, edge by edge, with the two shutdown statuses reachable from anywhere. */
  predicate DocumentedEdge(before: Status, after: Status) {
    || (before, after) == (Requested, SpawnerSetup)
    || (before, after) == (SpawnerSetup, PullingImage)
    || (before, after) == (PullingImage, CreatingContainer)
    || (before, after) == (CreatingContainer, UpdatingStore)
    || (before, after) == (UpdatingStore, Ready)
    || (before, after) == (Ready, Busy)
    || (before, after) == (Busy, Ready)
    || IsShutdownStatus(after)
  }

  /**
   On a document with a status, a call moves the status to the target exactly when the documented graph has
   that edge, and otherwise changes nothing; it never touches another field.  Shutdown statuses are closed.
   */
  lemma UpdateFollowsDocumentedGraph(rec: Record, target: Status)
    requires rec.status.Some?
    ensures var after := UpdateStatus(Some(rec), target);
            && after == Some(if DocumentedEdge(rec.status.value, target) then rec.(status := Some(target)) else rec)
            && (IsShutdownStatus(rec.status.value) ==> IsShutdownStatus(after.value.status.value))
  {
  }

  /**
   The one gap: a document without a status.  It takes every target that has a single predecessor, although the
   documented graph has no edge from nowhere; only Ready and the statuses without a table entry are refused.
   */
  lemma UpdateOfStatuslessDocument(rec: Record, target: Status)
    requires rec.status.None? && !IsShutdownStatus(target)
    ensures UpdateStatus(Some(rec), target) != Some(rec) <==> target != Ready && target != Requested
    ensures UpdateStatus(Some(rec), target) == Some(rec) ||
            UpdateStatus(Some(rec), target) == Some(Record(rec.actorId, Some(target), rec.hostId))
  {
  }

  /**
   A shutdown status lands on every document, and it creates a missing one: a stub that holds nothing else and that no
   query for an actor's workers returns.
   */
  lemma ShutdownStatusLands(rec: Option<Record>, target: Status)
    requires target == ShutdownRequested || target == ShuttingDown
    ensures UpdateStatus(rec, target) ==
      match rec
      case Some(r) => Some(Record(r.actorId, Some(target), r.hostId))
      case None => Some(Record(None, Some(target), None))
  {
  }

  /** No other status creates a document. */
  lemma OtherStatusCreatesNothing(target: Status)
    requires target != ShutdownRequested && target != ShuttingDown
    ensures UpdateStatus(None, target) == None
  {
  }

  /** Any number of calls, made by any processes in any order, one after the other. */
  function UpdateAll(rec: Option<Record>, targets: seq<Status>): Option<Record>
    decreases |targets|
  {
    if targets == [] then rec else UpdateAll(UpdateStatus(rec, targets[0]), targets[1..])
  }

  /** Once shutdown is requested, no sequence of calls brings the worker back, and its other fields stay. */
  lemma {:induction false} ShutdownIsClosed(rec: Record, targets: seq<Status>)
    requires rec.status.Some? && IsShutdownStatus(rec.status.value)
    ensures var after := UpdateAll(Some(rec), targets);
            && after.Some? && after.value.status.Some? && IsShutdownStatus(after.value.status.value)
            && after.value == rec.(status := after.value.status)
    decreases |targets|
  {
    if targets != [] {
      UpdateFollowsDocumentedGraph(rec, targets[0]);
      ShutdownIsClosed(UpdateStatus(Some(rec), targets[0]).value, targets[1..]);
    }
  }

  function WorkersIn(docs: map<string, Record>, actor: string): (keys: set<string>)
    ensures forall key :: key in keys <==> key in docs && docs[key].actorId == Some(actor)
  {
    set key | key in docs && docs[key].actorId == Some(actor)
  }

  /** Which workers an actor has depends on no other field than the actor id. */
  lemma SameWorkers(docs: map<string, Record>, after: map<string, Record>, key: string, actor: string)
    requires docs - {key} == after - {key} && key in docs && key in after && docs[key].actorId == after[key].actorId
    ensures WorkersIn(docs, actor) == WorkersIn(after, actor)
  {
    forall k | k != key ensures k in docs <==> k in after {
      assert k in docs <==> k in docs - {key};
      assert k in after <==> k in after - {key};
    }
    assert forall k :: k != key && k in docs ==> docs[k] == (docs - {key})[k] == (after - {key})[k] == after[k];
  }

  /** The workers collection.  Keys are the document ids, one per worker. */
  class WorkersStore {
    var docs: map<string, Record>

    constructor ()
      ensures docs == map[]
    {
      docs := map[];
    }

    function Get(key: string): Option<Record>
      reads this
    {
      if key in docs then Some(docs[key]) else None
    }

    /** get_workers: the keys of all documents of one actor. */
    function WorkersOf(actor: string): set<string>
      reads this
    {
      WorkersIn(docs, actor)
    }

    method RequestWorker(actor: string, key: string)
      modifies this
      ensures docs == old(docs)[key := Request(old(Get(key)), actor).value]
      ensures docs[key].actorId == Some(actor) && docs[key].status == Some(Requested)
      ensures docs[key].hostId == if key in old(docs) then old(docs)[key].hostId else None
      ensures key in WorkersOf(actor)
    {
      var doc := Upsert(Get(key));
      docs := docs[key := doc.(actorId := Some(actor), status := Some(Requested))];
    }

    method AddWorker(key: string, host: string)
      modifies this
      ensures docs == old(docs)[key := Add(old(Get(key)), host).value]
      ensures docs[key].status == Some(Ready) && docs[key].hostId == Some(host)
      ensures docs[key].actorId == if key in old(docs) then old(docs)[key].actorId else None
      ensures forall actor :: key in WorkersOf(actor) <==> key in old(WorkersOf(actor))
    {
      var doc := Upsert(Get(key));
      docs := docs[key := doc.(status := Some(Ready), hostId := Some(host))];
    }

    method DeleteWorker(key: string) returns (found: bool)
      modifies this
      ensures found <==> key in old(docs)
      ensures docs == old(docs) - {key}
    {
      found := key in docs;
      if found {
        docs := docs - {key};
      }
    }

    /** The conditional update, branch by branch; a refused update is only logged. */
    method UpdateWorkerStatus(key: string, status: Status)
      modifies this
      ensures Get(key) == UpdateStatus(old(Get(key)), status) && docs - {key} == old(docs) - {key}
      ensures key in docs <==> key in old(docs) || status == ShutdownRequested || status == ShuttingDown
      ensures key in docs && key !in old(docs) ==> docs[key] == Record(None, Some(status), None)
      ensures key in old(docs) && old(docs)[key].status.Some? ==>
                docs[key] == if DocumentedEdge(old(docs)[key].status.value, status)
                             then old(docs)[key].(status := Some(status)) else old(docs)[key]
    {
      if status == ShuttingDown || status == ShutdownRequested {
        docs := docs[key := Upsert(Get(key)).(status := Some(status))];
      } else {
        var valid := ValidFrom(status);
        if valid.None? || key !in docs {
          return;
        }
        var current := docs[key].status;
        if current == valid.value.first || current == valid.value.second {
          docs := docs[key := docs[key].(status := Some(status))];
        }
      }
    }
  }
}

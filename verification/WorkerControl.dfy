/** shutdown_worker and shutdown_workers (actors/worker.py) as programs over the store and the control channels. */
module WorkerControl {
  import opened WorkerRecords
  import opened WorkerLifecycle

  /** The control channels, by the document id of their worker. */
  class ControlChannels {
    var queues: map<string, seq<Msg>>

    constructor ()
      ensures queues == map[]
    {
      queues := map[];
    }

    function Queue(key: string): seq<Msg>
      reads this
    {
      if key in queues then queues[key] else []
    }

    method Put(key: string, msg: Msg)
      modifies this
      ensures queues == old(queues)[key := old(Queue(key)) + [msg]]
    {
      queues := queues[key := Queue(key) + [msg]];
    }
  }

  /** What one call does to a worker's document and channel when nothing comes in between. */
  method ShutdownWorker(store: WorkersStore, channels: ControlChannels, key: string, deleteMailbox: bool)
    modifies store, channels
    ensures forall k ::
      && store.Get(k) == (if k == key then UpdateStatus(old(store.Get(k)), ShutdownRequested) else old(store.Get(k)))
      && channels.Queue(k) == old(channels.Queue(k)) + (if k == key then [Stop(deleteMailbox)] else [])
  {
    store.UpdateWorkerStatus(key, ShutdownRequested);
    channels.Put(key, Stop(deleteMailbox));
    forall k | k != key ensures store.Get(k) == old(store.Get(k)) {
      assert k in store.docs <==> k in store.docs - {key};
      assert k in old(store.docs) <==> k in old(store.docs) - {key};
      assert k in store.docs ==> (store.docs - {key})[k] == store.docs[k];
      assert k in old(store.docs) ==> (old(store.docs) - {key})[k] == old(store.docs)[k];
    }
  }

  /** Every worker of the actor that the store returns gets exactly one stop and its status; no other is touched. */
  method ShutdownWorkers(store: WorkersStore, channels: ControlChannels, actor: string, deleteMailbox: bool)
    modifies store, channels
    ensures forall k ::
      var told := k in old(store.WorkersOf(actor));
      && store.Get(k) == (if told then UpdateStatus(old(store.Get(k)), ShutdownRequested) else old(store.Get(k)))
      && channels.Queue(k) == old(channels.Queue(k)) + (if told then [Stop(deleteMailbox)] else [])
  {
    var workers := store.WorkersOf(actor);
    var left := workers;
    while left != {}
      invariant left <= workers
      invariant forall k ::
        var told := k in workers - left;
        && store.Get(k) == (if told then UpdateStatus(old(store.Get(k)), ShutdownRequested) else old(store.Get(k)))
        && channels.Queue(k) == old(channels.Queue(k)) + (if told then [Stop(deleteMailbox)] else [])
      decreases left
    {
      var key :| key in left;
      ShutdownWorker(store, channels, key, deleteMailbox);
      left := left - {key};
    }
  }

  /** In the lifecycle protocol such a call is two steps, the status write and the put. */
  lemma ShutdownIsTwoSteps(s: State, deleteMailbox: bool)
    ensures var i := |s.requesters|;
            var t := Run(s, [FromOutside(RequestShutdown(deleteMailbox, true)), FromOutside(PutStop(i))]);
            && t.rec == UpdateStatus(s.rec, ShutdownRequested)
            && t.channel == s.channel + [Stop(deleteMailbox)]
            && t.requesters == s.requesters + [Returned]
  {
    var i := |s.requesters|;
    var request, put := FromOutside(RequestShutdown(deleteMailbox, true)), FromOutside(PutStop(i));
    var s1 := Step(s, request);
    var s2 := Step(s1, put);
    assert [] + [request] == [request] && [request] + [put] == [request, put];
    RunAppend(s, [], request);
    RunAppend(s, [request], put);
    assert s2.requesters == s.requesters + [Returned];
  }
}

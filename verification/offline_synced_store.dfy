/** `useOfflineSyncedStore`: an optimistic local view over a remote collection,
    with a persisted queue of the mutations the remote has not accepted yet.
    Every remote call is represented by its outcome, passed in by the caller. */
module OfflineSyncedStore {
  import opened Wrappers
  import opened SyncedItems
  import opened PendingQueue

  /** What `fetchRemote` resolves to. */
  datatype Fetched<V> = FetchOk(items: seq<Item<V>>) | FetchErr

  class Store<V(==)> {
    /** The last fetched snapshot (the state of `useAsyncState`). */
    var remoteItems: seq<Item<V>>
    /** Optimistic local entries. */
    var localCache: seq<Item<V>>
    /** The queue persisted under `pending:<key>`. */
    var pending: seq<PendingOperation<V>>
    /** True until the initial drain and fetch have settled. */
    var isLoading: bool
    /** Whether the optional `updateRemote` handler was supplied. */
    const hasUpdateRemote: bool

    /** The visible collection: the snapshot followed by the local entries, without de-duplication. */
    function Items(): (r: seq<Item<V>>)
      reads this
      ensures |r| == |remoteItems| + |localCache|
      ensures forall k :: 0 <= k < |r| ==> r[k] in remoteItems || r[k] in localCache
      ensures forall x :: x in remoteItems ==> x in r
      ensures forall x :: x in localCache ==> x in r
    {
      remoteItems + localCache
    }

    /** The store as the hook creates it, before the initial drain and fetch settle:
        the snapshot is the initial `[]` and the queue is whatever was persisted. */
    constructor (stored: seq<PendingOperation<V>>, updateRemoteGiven: bool)
      ensures remoteItems == [] && localCache == [] && pending == stored
      ensures isLoading && hasUpdateRemote == updateRemoteGiven
    {
      remoteItems := [];
      localCache := [];
      pending := stored;
      isLoading := true;
      hasUpdateRemote := updateRemoteGiven;
    }

    /** `squashPendingOperation`: queues `op` by the merge rule. */
    method SquashPendingOperation(op: PendingOperation<V>)
      modifies this`pending
      ensures pending == Squash(old(pending), op)
      ensures UpdatesLead(old(pending)) ==> UpdatesLead(pending)
    {
      ghost var q := pending;
      if UpdatesLead(q) {
        SquashKeepsUpdatesLead(q, op);
      }
      if op.kind == OpType.Add {
        pending := pending + [op];
        return;
      }
      var id := KeyOf(op.item);
      if id.None? {
        return;
      }
      var index := IndexOfId(ItemsOf(pending), id.value);
      if index == -1 {
        pending := pending + [op];
        return;
      }
      if pending[index].kind == OpType.Update {
        pending := pending[index := op];
      }
    }

    /** `syncPending`: replays a snapshot of the queue in order, `outcomes[i]` being
        what the handler of the i-th op returns, and keeps only the failed ops. */
    method SyncPending(outcomes: seq<Outcome>) returns (calls: seq<RemoteCall<V>>)
      requires |outcomes| == |pending|
      modifies this`pending
      ensures pending == Leftovers(old(pending), outcomes, hasUpdateRemote)
      ensures calls == Dispatched(old(pending), hasUpdateRemote)
      ensures UpdatesLead(old(pending)) ==> UpdatesLead(pending)
    {
      var queue := pending;
      var leftovers := [];
      calls := [];
      for i := 0 to |queue|
        invariant leftovers == Leftovers(queue[..i], outcomes[..i], hasUpdateRemote)
        invariant calls == Dispatched(queue[..i], hasUpdateRemote)
      {
        var op := queue[i];
        assert queue[..i + 1] == queue[..i] + [op];
        assert outcomes[..i + 1] == outcomes[..i] + [outcomes[i]];
        LeftoversAppend(queue[..i], outcomes[..i], [op], [outcomes[i]], hasUpdateRemote);
        DispatchedAppend(queue[..i], [op], hasUpdateRemote);
        if HasHandler(op.kind, hasUpdateRemote) {
          calls := calls + [Replay(op)];
          if outcomes[i] == Err {
            leftovers := leftovers + [op];
          }
        }
      }
      assert queue[..|queue|] == queue && outcomes[..|queue|] == outcomes;
      pending := leftovers;
      if UpdatesLead(queue) {
        LeftoversKeepUpdatesLead(queue, outcomes, hasUpdateRemote);
      }
    }

    /** The initial load: drains the queue first, then makes the single fetch; a failed
        fetch leaves the snapshot empty. The returned trace lists the remote calls in order. */
    method Load(outcomes: seq<Outcome>, fetched: Fetched<V>) returns (trace: seq<RemoteCall<V>>)
      requires |outcomes| == |pending|
      modifies this`pending, this`remoteItems, this`isLoading
      ensures pending == Leftovers(old(pending), outcomes, hasUpdateRemote)
      ensures remoteItems == (if fetched.FetchOk? then fetched.items else [])
      ensures localCache == old(localCache) && !isLoading
      ensures trace == Dispatched(old(pending), hasUpdateRemote) + [FetchRemote]
      ensures forall k :: 0 <= k < |trace| - 1 ==> trace[k].Replay?
    {
      var calls := SyncPending(outcomes);
      trace := calls + [FetchRemote];
      remoteItems := if fetched.FetchOk? then fetched.items else [];
      isLoading := false;
    }

    /** `add`: appends the item to the local entries, calls `addRemote` and queues an
        add when it fails. The snapshot is left as it was, even on success. */
    method Add(item: Item<V>, outcome: Outcome)
      modifies this`localCache, this`pending
      ensures localCache == old(localCache) + [item]
      ensures pending == if outcome == Err then old(pending) + [PendingOperation(OpType.Add, item)] else old(pending)
      ensures remoteItems == old(remoteItems)
      ensures Items() == old(Items()) + [item]
      ensures UpdatesLead(old(pending)) ==> UpdatesLead(pending)
    {
      localCache := localCache + [item];
      if outcome == Err {
        SquashPendingOperation(PendingOperation(OpType.Add, item));
      }
    }

    /** `remove`: without an id nothing happens; otherwise every entry with that id is
        dropped from the snapshot and the local entries, `removeRemote` is called and
        a remove is queued when it fails. */
    method Remove(item: Item<V>, outcome: Outcome)
      modifies this`remoteItems, this`localCache, this`pending
      ensures KeyOf(item).None? ==>
                remoteItems == old(remoteItems) && localCache == old(localCache) && pending == old(pending)
      ensures KeyOf(item).Some? ==>
                && remoteItems == WithoutId(old(remoteItems), KeyOf(item).value)
                && localCache == WithoutId(old(localCache), KeyOf(item).value)
                && pending == (if outcome == Err then Squash(old(pending), PendingOperation(OpType.Remove, item))
                               else old(pending))
      ensures KeyOf(item).Some? ==> forall k :: 0 <= k < |Items()| ==> !HasId(Items()[k], KeyOf(item).value)
      ensures UpdatesLead(old(pending)) ==> UpdatesLead(pending)
    {
      if KeyOf(item).None? {
        return;
      }
      var id := KeyOf(item).value;
      remoteItems := WithoutId(remoteItems, id);
      localCache := WithoutId(localCache, id);
      if outcome == Err {
        SquashPendingOperation(PendingOperation(OpType.Remove, item));
      }
    }

    /** `update`: without an id nothing happens; otherwise the id is dropped from the
        snapshot and the item is upserted into the local entries. `updateRemote` is
        called only when supplied, and an update is queued only when it fails. */
    method Update(item: Item<V>, outcome: Outcome)
      modifies this`remoteItems, this`localCache, this`pending
      ensures KeyOf(item).None? ==>
                remoteItems == old(remoteItems) && localCache == old(localCache) && pending == old(pending)
      ensures KeyOf(item).Some? ==>
                && remoteItems == WithoutId(old(remoteItems), KeyOf(item).value)
                && localCache == Upsert(old(localCache), item)
                && pending == (if hasUpdateRemote && outcome == Err
                               then Squash(old(pending), PendingOperation(OpType.Update, item))
                               else old(pending))
      ensures KeyOf(item).Some? ==> item in Items()
      ensures UpdatesLead(old(pending)) ==> UpdatesLead(pending)
    {
      if KeyOf(item).None? {
        return;
      }
      var id := KeyOf(item).value;
      remoteItems := WithoutId(remoteItems, id);
      var index := IndexOfId(localCache, id);
      if index == -1 {
        localCache := localCache + [item];
      } else {
        localCache := localCache[index := item];
      }
      if hasUpdateRemote && outcome == Err {
        SquashPendingOperation(PendingOperation(OpType.Update, item));
      }
    }
  }

  /** The scenarios of the hook's tests, replayed against the model. */
  method OfflineUpdatesAreSquashed()
  {
    var squats := Item(Some("1"), "Squats");
    var s := new Store<string>([], true);
    var trace := s.Load([], FetchOk([squats]));
    assert trace == [FetchRemote];
    assert s.Items() == [squats];
    var first := Item(Some("1"), "Jump");
    var second := Item(Some("1"), "Jump Higher");
    s.Update(first, Err);
    s.Update(second, Err);
    assert s.pending == [PendingOperation(Update, second)];
    assert s.Items() == [second];
  }

  method FailedAddsAreNotSquashed()
  {
    var wallSit := Item(Some("5"), "Wall Sit");
    var s := new Store<string>([], true);
    var _ := s.Load([], FetchErr);
    assert s.Items() == [];
    s.Add(wallSit, Err);
    s.Add(wallSit, Err);
    assert s.pending == [PendingOperation(Add, wallSit), PendingOperation(Add, wallSit)];
    assert s.Items() == [wallSit, wallSit];
  }

  method RemoveBehindQueuedAddIsDropped()
  {
    var item := Item(Some("1"), "Item");
    var s := new Store<string>([], true);
    var _ := s.Load([], FetchOk([]));
    s.Add(item, Err);
    s.Remove(item, Err);
    assert s.Items() == [];
    assert s.pending == [PendingOperation(Add, item)];
  }

  method UpdateBehindQueuedAddIsDropped()
  {
    var v1 := Item(Some("1"), "Bench Press");
    var v2 := Item(Some("1"), "Incline Bench Press");
    var s := new Store<string>([], true);
    var _ := s.Load([], FetchOk([]));
    s.Add(v1, Err);
    var queued := [PendingOperation(Add, v1)];
    assert s.pending == queued;
    assert IndexOfId([v1], "1") == 0;
    assert ItemsOf(queued) == [v1];
    s.Update(v2, Err);
    assert s.localCache == [v2];
    assert s.Items() == [v2];
    assert s.pending == queued;
    var calls := s.SyncPending([Ok]);
    assert queued[1..] == [];
    assert calls == [Replay(queued[0])];
    assert s.pending == [];
  }

  method DrainRunsBeforeFetch()
  {
    var bench := Item(None, "Bench Press");
    var renamed := Item(Some("1"), "Renamed");
    var gone := Item(Some("2"), "Does not matter");
    var stored := [PendingOperation(Add, bench), PendingOperation(Update, renamed), PendingOperation(Remove, gone)];
    var s := new Store<string>(stored, true);
    var trace := s.Load([Ok, Ok, Ok], FetchOk([Item(Some("1"), "Squats"), Item(Some("2"), "Dead Lifts")]));
    assert stored[1..][1..] == stored[2..] && stored[2..][1..] == [];
    assert Dispatched(stored[2..], true) == [Replay(stored[2])];
    assert Dispatched(stored[1..], true) == [Replay(stored[1]), Replay(stored[2])];
    assert trace == [Replay(stored[0]), Replay(stored[1]), Replay(stored[2]), FetchRemote];
    LeftoversAllOk(stored, [Ok, Ok, Ok], true);
    assert s.pending == [];
    assert |s.Items()| == 2;
  }
}

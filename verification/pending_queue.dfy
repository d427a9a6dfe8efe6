/** The persisted queue of operations that did not reach the remote: the merge
    rule applied when an operation is queued, and what survives a replay. */
module PendingQueue {
  import opened Wrappers
  import opened Subsequences
  import opened SyncedItems

  datatype OpType = Add | Update | Remove

  /** `{ type, item }` as stored under `pending:<key>`. */
  datatype PendingOperation<V> = PendingOperation(kind: OpType, item: Item<V>)

  /** What a remote handler's `Result` reports: only `isErr()` is inspected. */
  datatype Outcome = Ok | Err

  /** A call the store makes to its remote collaborator. */
  datatype RemoteCall<V> = Replay(op: PendingOperation<V>) | FetchRemote

  /** `remoteHandlers[kind]` is defined: `addRemote` and `removeRemote` are required,
      `updateRemote` is optional. */
  predicate HasHandler(kind: OpType, hasUpdateRemote: bool)
    ensures kind == Add || kind == Remove ==> HasHandler(kind, hasUpdateRemote)
    ensures kind == Update ==> (HasHandler(kind, hasUpdateRemote) <==> hasUpdateRemote)
  {
    kind != Update || hasUpdateRemote
  }

  /** The items of the queued operations, position by position. */
  function ItemsOf<V>(q: seq<PendingOperation<V>>): (r: seq<Item<V>>)
    ensures |r| == |q| && forall i :: 0 <= i < |q| ==> r[i] == q[i].item
  {
    seq(|q|, i requires 0 <= i < |q| => q[i].item)
  }

  /** The merge rule of `squashPendingOperation`: an add is always appended; an update
      or remove without an id is dropped; one whose id no queued op carries is appended;
      otherwise it overwrites the first op with that id when that op is an update and
      is dropped when that op is an add or a remove. */
  function Squash<V>(q: seq<PendingOperation<V>>, op: PendingOperation<V>): (r: seq<PendingOperation<V>>)
    ensures op.kind == Add ==> r == q + [op]
    ensures op.kind != Add && KeyOf(op.item).None? ==> r == q
    ensures op.kind != Add && KeyOf(op.item).Some? ==>
              ((forall j :: 0 <= j < |q| ==> !HasId(q[j].item, KeyOf(op.item).value)) ==> r == q + [op])
    ensures op.kind != Add && KeyOf(op.item).Some? ==>
              forall i :: 0 <= i < |q| && HasId(q[i].item, KeyOf(op.item).value)
                          && (forall j :: 0 <= j < i ==> !HasId(q[j].item, KeyOf(op.item).value))
                          ==> r == (if q[i].kind == Update then q[i := op] else q)
  {
    if op.kind == Add then q + [op]
    else match KeyOf(op.item)
      case None => q
      case Some(id) =>
        var index := IndexOfId(ItemsOf(q), id);
        if index == -1 then q + [op]
        else if q[index].kind == Update then q[index := op]
        else q
  }

  /** The queue grows by one exactly when the op is appended, and otherwise keeps its length. */
  lemma SquashLength<V>(q: seq<PendingOperation<V>>, op: PendingOperation<V>)
    ensures |Squash(q, op)| == |q| + 1 <==>
              op.kind == Add ||
              (KeyOf(op.item).Some? && forall j :: 0 <= j < |q| ==> !HasId(q[j].item, KeyOf(op.item).value))
    ensures |Squash(q, op)| == |q| || |Squash(q, op)| == |q| + 1
  {
  }

  /** A replayed op stays queued when it has a handler and that handler returned an error. */
  predicate Retained<V>(op: PendingOperation<V>, outcome: Outcome, hasUpdateRemote: bool)
    ensures outcome == Ok ==> !Retained(op, outcome, hasUpdateRemote)
    ensures op.kind != Update ==> (Retained(op, outcome, hasUpdateRemote) <==> outcome == Err)
    ensures op.kind == Update && !hasUpdateRemote ==> !Retained(op, outcome, hasUpdateRemote)
  {
    HasHandler(op.kind, hasUpdateRemote) && outcome == Err
  }

  /** The `leftovers` of `syncPending`: the queue replayed in order against one
      outcome per op, keeping the ops whose handler returned an error. */
  function Leftovers<V>(q: seq<PendingOperation<V>>, outcomes: seq<Outcome>, hasUpdateRemote: bool): (r: seq<PendingOperation<V>>)
    requires |q| == |outcomes|
    ensures |r| <= |q|
    decreases |q|
  {
    if q == [] then []
    else (if Retained(q[0], outcomes[0], hasUpdateRemote) then [q[0]] else [])
         + Leftovers(q[1..], outcomes[1..], hasUpdateRemote)
  }

  /** The handler calls a replay makes, in queue order: one per op that has a handler. */
  function Dispatched<V>(q: seq<PendingOperation<V>>, hasUpdateRemote: bool): (r: seq<RemoteCall<V>>)
    ensures |r| <= |q|
    ensures forall k :: 0 <= k < |r| ==> r[k].Replay? && r[k].op in q && HasHandler(r[k].op.kind, hasUpdateRemote)
    decreases |q|
  {
    if q == [] then []
    else (if HasHandler(q[0].kind, hasUpdateRemote) then [Replay(q[0])] else [])
         + Dispatched(q[1..], hasUpdateRemote)
  }

  /** Replaying a queue in two halves leaves what replaying it whole leaves. */
  lemma {:induction false} LeftoversAppend<V>(q1: seq<PendingOperation<V>>, o1: seq<Outcome>,
                                              q2: seq<PendingOperation<V>>, o2: seq<Outcome>, u: bool)
    requires |q1| == |o1| && |q2| == |o2|
    ensures Leftovers(q1 + q2, o1 + o2, u) == Leftovers(q1, o1, u) + Leftovers(q2, o2, u)
    decreases |q1|
  {
    if q1 != [] {
      assert (q1 + q2)[1..] == q1[1..] + q2;
      assert (o1 + o2)[1..] == o1[1..] + o2;
      LeftoversAppend(q1[1..], o1[1..], q2, o2, u);
    } else {
      assert q1 + q2 == q2 && o1 + o2 == o2;
    }
  }

  /** Dispatching a queue in two halves makes the calls that dispatching it whole makes. */
  lemma {:induction false} DispatchedAppend<V>(q1: seq<PendingOperation<V>>, q2: seq<PendingOperation<V>>, u: bool)
    ensures Dispatched(q1 + q2, u) == Dispatched(q1, u) + Dispatched(q2, u)
    decreases |q1|
  {
    if q1 != [] {
      assert (q1 + q2)[1..] == q1[1..] + q2;
      DispatchedAppend(q1[1..], q2, u);
    } else {
      assert q1 + q2 == q2;
    }
  }

  /** The leftovers are an in-order subsequence of the replayed queue. */
  lemma {:induction false} LeftoversSubseq<V>(q: seq<PendingOperation<V>>, outcomes: seq<Outcome>, u: bool)
    requires |q| == |outcomes|
    ensures IsSubseq(Leftovers(q, outcomes, u), q)
    decreases |q|
  {
    if q != [] {
      LeftoversSubseq(q[1..], outcomes[1..], u);
      var rest := Leftovers(q[1..], outcomes[1..], u);
      if Retained(q[0], outcomes[0], u) {
        assert Leftovers(q, outcomes, u) == [q[0]] + rest;
        assert ([q[0]] + rest)[1..] == rest;
      } else {
        assert Leftovers(q, outcomes, u) == rest;
        if rest != [] {
          assert IsSubseq(rest, q[1..]);
        }
      }
    }
  }

  /** An op is left over exactly when some queued copy of it was retained. */
  lemma {:induction false} LeftoversMembers<V>(q: seq<PendingOperation<V>>, outcomes: seq<Outcome>, u: bool, op: PendingOperation<V>)
    requires |q| == |outcomes|
    ensures op in Leftovers(q, outcomes, u) <==>
              exists i :: 0 <= i < |q| && q[i] == op && Retained(q[i], outcomes[i], u)
    decreases |q|
  {
    if q != [] {
      LeftoversMembers(q[1..], outcomes[1..], u, op);
      if exists i :: 0 <= i < |q[1..]| && q[1..][i] == op && Retained(q[1..][i], outcomes[1..][i], u) {
        var i :| 0 <= i < |q[1..]| && q[1..][i] == op && Retained(q[1..][i], outcomes[1..][i], u);
        assert q[i + 1] == op && Retained(q[i + 1], outcomes[i + 1], u);
      }
      if exists i :: 0 <= i < |q| && q[i] == op && Retained(q[i], outcomes[i], u) {
        var i :| 0 <= i < |q| && q[i] == op && Retained(q[i], outcomes[i], u);
        if i > 0 {
          assert q[1..][i - 1] == op && Retained(q[1..][i - 1], outcomes[1..][i - 1], u);
        }
      }
    }
  }

  /** `idx` lists positions below `n` in strictly increasing order. */
  ghost predicate Positions(idx: seq<int>, n: int)
  {
    && (forall k :: 0 <= k < |idx| ==> 0 <= idx[k] < n)
    && (forall k, l :: 0 <= k < l < |idx| ==> idx[k] < idx[l])
  }

  /** The positions `base + i` for which `mask[i]` holds, in increasing order: what a
      filter keeps, numbered from `base`. */
  function KeptFrom(mask: seq<bool>, base: int): (idx: seq<int>)
    ensures |idx| <= |mask|
    ensures forall k :: 0 <= k < |idx| ==> base <= idx[k] < base + |mask|
    decreases |mask|
  {
    if mask == [] then []
    else (if mask[0] then [base] else []) + KeptFrom(mask[1..], base + 1)
  }

  /** The kept positions strictly increase. */
  lemma {:induction false} KeptIncreasing(mask: seq<bool>, base: int)
    ensures forall k, l :: 0 <= k < l < |KeptFrom(mask, base)| ==> KeptFrom(mask, base)[k] < KeptFrom(mask, base)[l]
    decreases |mask|
  {
    if mask != [] {
      KeptIncreasing(mask[1..], base + 1);
    }
  }

  /** A position is kept exactly when `mask` holds there. */
  lemma {:induction false} KeptMembers(mask: seq<bool>, base: int)
    ensures forall i :: 0 <= i < |mask| ==> (base + i in KeptFrom(mask, base) <==> mask[i])
    decreases |mask|
  {
    if mask != [] {
      KeptMembers(mask[1..], base + 1);
      var tail := KeptFrom(mask[1..], base + 1);
      forall i | 0 <= i < |mask|
        ensures base + i in KeptFrom(mask, base) <==> mask[i]
      {
        if i == 0 {
          assert base !in tail;
        } else {
          assert mask[1..][i - 1] == mask[i] && base + 1 + (i - 1) == base + i;
        }
      }
    }
  }

  /** The elements of `xs` where `mask` holds, in order. */
  function Filter<T>(xs: seq<T>, mask: seq<bool>): (r: seq<T>)
    requires |xs| == |mask|
    ensures forall base :: |r| == |KeptFrom(mask, base)|
    decreases |xs|
  {
    if xs == [] then []
    else (if mask[0] then [xs[0]] else []) + Filter(xs[1..], mask[1..])
  }

  /** The `k`-th element a filter keeps is the element at the `k`-th kept position. */
  lemma {:induction false} FilterAt<T>(xs: seq<T>, mask: seq<bool>, base: int)
    requires |xs| == |mask|
    ensures forall k :: 0 <= k < |Filter(xs, mask)| ==> Filter(xs, mask)[k] == xs[KeptFrom(mask, base)[k] - base]
    decreases |xs|
  {
    if xs != [] {
      FilterAt(xs[1..], mask[1..], base + 1);
      var d := if mask[0] then 1 else 0;
      var r, rest, t := Filter(xs, mask), Filter(xs[1..], mask[1..]), KeptFrom(mask[1..], base + 1);
      forall k | d <= k < |r|
        ensures r[k] == xs[KeptFrom(mask, base)[k] - base]
      {
        assert KeptFrom(mask, base)[k] == t[k - d];
        assert r[k] == rest[k - d] == xs[1..][t[k - d] - (base + 1)];
      }
    }
  }

  /** Which queued ops have a handler. */
  function HandlerMask<V>(q: seq<PendingOperation<V>>, u: bool): (m: seq<bool>)
    ensures |m| == |q| && forall i :: 0 <= i < |q| ==> (m[i] <==> HasHandler(q[i].kind, u))
  {
    seq(|q|, i requires 0 <= i < |q| => HasHandler(q[i].kind, u))
  }

  /** Which replayed ops are retained. */
  function RetainedMask<V>(q: seq<PendingOperation<V>>, outcomes: seq<Outcome>, u: bool): (m: seq<bool>)
    requires |q| == |outcomes|
    ensures |m| == |q| && forall i :: 0 <= i < |q| ==> (m[i] <==> Retained(q[i], outcomes[i], u))
  {
    seq(|q|, i requires 0 <= i < |q| => Retained(q[i], outcomes[i], u))
  }

  /** A replay call per queued op. */
  function ReplaysOf<V>(q: seq<PendingOperation<V>>): (r: seq<RemoteCall<V>>)
    ensures |r| == |q| && forall i :: 0 <= i < |q| ==> r[i] == Replay(q[i])
  {
    seq(|q|, i requires 0 <= i < |q| => Replay(q[i]))
  }

  /** `Dispatched` filters the replay calls by which ops have a handler. */
  lemma {:induction false} DispatchedIsFilter<V>(q: seq<PendingOperation<V>>, u: bool)
    ensures Dispatched(q, u) == Filter(ReplaysOf(q), HandlerMask(q, u))
    decreases |q|
  {
    if q != [] {
      DispatchedIsFilter(q[1..], u);
      assert ReplaysOf(q)[1..] == ReplaysOf(q[1..]);
      assert HandlerMask(q, u)[1..] == HandlerMask(q[1..], u);
    }
  }

  /** `Leftovers` filters the queue by which ops are retained. */
  lemma {:induction false} LeftoversIsFilter<V>(q: seq<PendingOperation<V>>, outcomes: seq<Outcome>, u: bool)
    requires |q| == |outcomes|
    ensures Leftovers(q, outcomes, u) == Filter(q, RetainedMask(q, outcomes, u))
    decreases |q|
  {
    if q != [] {
      LeftoversIsFilter(q[1..], outcomes[1..], u);
      assert RetainedMask(q, outcomes, u)[1..] == RetainedMask(q[1..], outcomes[1..], u);
    }
  }

  /** The handler calls of a replay are the ops that have a handler, at increasing
      queue positions, and no others: each op with a handler is called exactly once. */
  lemma DispatchedPositions<V>(q: seq<PendingOperation<V>>, u: bool) returns (idx: seq<int>)
    ensures Positions(idx, |q|)
    ensures |idx| == |Dispatched(q, u)|
    ensures forall k :: 0 <= k < |idx| ==> Dispatched(q, u)[k] == Replay(q[idx[k]])
    ensures forall i :: 0 <= i < |q| ==> (i in idx <==> HasHandler(q[i].kind, u))
  {
    idx := KeptFrom(HandlerMask(q, u), 0);
    KeptIncreasing(HandlerMask(q, u), 0);
    KeptMembers(HandlerMask(q, u), 0);
    DispatchedIsFilter(q, u);
    FilterAt(ReplaysOf(q), HandlerMask(q, u), 0);
  }

  /** The leftovers are the retained ops, at increasing queue positions, and no others:
      a failed op is re-queued once and in its original order. */
  lemma LeftoversPositions<V>(q: seq<PendingOperation<V>>, outcomes: seq<Outcome>, u: bool) returns (idx: seq<int>)
    requires |q| == |outcomes|
    ensures Positions(idx, |q|)
    ensures |idx| == |Leftovers(q, outcomes, u)|
    ensures forall k :: 0 <= k < |idx| ==> Leftovers(q, outcomes, u)[k] == q[idx[k]]
    ensures forall i :: 0 <= i < |q| ==> (i in idx <==> Retained(q[i], outcomes[i], u))
  {
    idx := KeptFrom(RetainedMask(q, outcomes, u), 0);
    KeptIncreasing(RetainedMask(q, outcomes, u), 0);
    KeptMembers(RetainedMask(q, outcomes, u), 0);
    LeftoversIsFilter(q, outcomes, u);
    FilterAt(q, RetainedMask(q, outcomes, u), 0);
  }

  /** When every handler succeeds the queue is emptied. */
  lemma {:induction false} LeftoversAllOk<V>(q: seq<PendingOperation<V>>, outcomes: seq<Outcome>, u: bool)
    requires |q| == |outcomes|
    requires forall i :: 0 <= i < |outcomes| ==> outcomes[i] == Ok
    ensures Leftovers(q, outcomes, u) == []
    decreases |q|
  {
    if q != [] {
      LeftoversAllOk(q[1..], outcomes[1..], u);
    }
  }

  /** When every op has a handler and every handler fails, the queue is kept as it was. */
  lemma {:induction false} LeftoversAllErr<V>(q: seq<PendingOperation<V>>, outcomes: seq<Outcome>, u: bool)
    requires |q| == |outcomes|
    requires forall i :: 0 <= i < |q| ==> outcomes[i] == Err && HasHandler(q[i].kind, u)
    ensures Leftovers(q, outcomes, u) == q
    decreases |q|
  {
    if q != [] {
      LeftoversAllErr(q[1..], outcomes[1..], u);
      assert [q[0]] + q[1..] == q;
    }
  }

  /** Replaying an empty queue calls no handler and leaves the queue empty, so a
      second replay after it is a no-op too. */
  lemma ReplayEmptyIsNoOp<V>(q: seq<PendingOperation<V>>, outcomes: seq<Outcome>, u: bool)
    requires q == [] && outcomes == []
    ensures Leftovers(q, outcomes, u) == q
    ensures Dispatched(q, u) == []
  {
  }

  /** Every queued update carries an id and is the first queued op with that id.
      This is the shape the merge rule keeps: at most one update per id. */
  ghost predicate UpdatesLead<V>(q: seq<PendingOperation<V>>)
  {
    forall i :: 0 <= i < |q| && q[i].kind == Update ==>
      KeyOf(q[i].item).Some? && forall j :: 0 <= j < i ==> q[j].item.id != q[i].item.id
  }

  /** Under the merge rule's invariant no id has two queued updates. */
  lemma AtMostOneUpdatePerId<V>(q: seq<PendingOperation<V>>)
    requires UpdatesLead(q)
    ensures forall i, j :: 0 <= i < j < |q| && q[i].kind == Update && q[j].kind == Update ==>
              q[i].item.id != q[j].item.id
  {
  }

  /** The merge rule keeps every update first for its id. */
  lemma SquashKeepsUpdatesLead<V>(q: seq<PendingOperation<V>>, op: PendingOperation<V>)
    requires UpdatesLead(q)
    ensures UpdatesLead(Squash(q, op))
  {
  }

  /** Dropping ops from the queue keeps every remaining update first for its id. */
  lemma {:induction false} SubseqKeepsUpdatesLead<V>(a: seq<PendingOperation<V>>, b: seq<PendingOperation<V>>)
    requires IsSubseq(a, b) && UpdatesLead(b)
    ensures UpdatesLead(a)
    decreases |b|
  {
    if a == [] {
    } else {
      assert UpdatesLead(b[1..]) by {
        forall i | 0 <= i < |b[1..]| && b[1..][i].kind == Update
          ensures KeyOf(b[1..][i].item).Some? && forall j :: 0 <= j < i ==> b[1..][j].item.id != b[1..][i].item.id
        {
          assert b[1..][i] == b[i + 1];
          forall j | 0 <= j < i ensures b[1..][j].item.id != b[1..][i].item.id {
            assert b[1..][j] == b[j + 1];
          }
        }
      }
      if a[0] == b[0] && IsSubseq(a[1..], b[1..]) {
        SubseqKeepsUpdatesLead(a[1..], b[1..]);
        SubseqPositions(a[1..], b[1..]);
        forall i | 0 <= i < |a| && a[i].kind == Update
          ensures KeyOf(a[i].item).Some? && forall j :: 0 <= j < i ==> a[j].item.id != a[i].item.id
        {
          if i > 0 {
            assert a[i] == a[1..][i - 1];
            var k :| 0 <= k < |b[1..]| && b[1..][k] == a[1..][i - 1];
            assert b[k + 1] == a[i];
            forall j | 0 <= j < i ensures a[j].item.id != a[i].item.id {
              if j > 0 {
                assert a[j] == a[1..][j - 1];
              }
            }
          }
        }
      } else {
        SubseqKeepsUpdatesLead(a, b[1..]);
      }
    }
  }

  /** A replay keeps every remaining update first for its id. */
  lemma LeftoversKeepUpdatesLead<V>(q: seq<PendingOperation<V>>, outcomes: seq<Outcome>, u: bool)
    requires |q| == |outcomes| && UpdatesLead(q)
    ensures UpdatesLead(Leftovers(q, outcomes, u))
  {
    LeftoversSubseq(q, outcomes, u);
    SubseqKeepsUpdatesLead(Leftovers(q, outcomes, u), q);
  }
}

/** Main results about blocks, contents and order, for every reachable state of every interleaving. */
module Delivery {
  import opened Messages
  import opened Threads
  import opened System
  import opened Broadcast
  import opened Ownership
  import opened Payload
  import opened Pools
  import opened History
  import opened Wakeup
  import opened TimerTable
  import opened Invariant
  import opened Leaks
  import opened Monitor

  // Ownership ---------------------------------------------------------------------------------------

  /** Blocks being filled or handed over by a sender. */
  ghost function Filling(s: State): set<Block> {
    set t | t in s.pcs && s.pcs[t].Sending? && Carried(s.pcs[t]).Some? :: Carried(s.pcs[t]).value
  }

  /** Blocks that ReleaseMessage is about to deallocate. */
  ghost function BeingFreed(s: State): set<Block> {
    set t | t in s.pcs && s.pcs[t].Freeing? :: s.pcs[t].b
  }

  ghost predicate InQueue(s: State, b: Block, m: Mid, k: nat) {
    m in s.queues && k < |s.queues[m]| && s.queues[m][k].msg.data == Some(b)
  }

  ghost function InQueues(s: State): set<Block> {
    set b | b in s.heap && exists m, k :: InQueue(s, b, m, k)
  }

  /** The five kinds of owner share out the blocks in use, none left over and none shared. */
  lemma OwnershipPartition(c: Config, s: State)
    requires Reachable(c, s)
    ensures s.heap.Keys == Filling(s) + InQueues(s) + s.held.Keys + BeingFreed(s) + s.dropped
    ensures Filling(s) !! InQueues(s) !! s.held.Keys !! BeingFreed(s) !! s.dropped
  {
    hide *;
    ReachableParts(c, s);
    Places(s);
  }

  lemma ThreadKinds(pcs: map<Tid, PC>, place: map<Block, Place>, s: State, b: Block)
    requires ThreadPlaces(pcs, place) && pcs == s.pcs
    ensures b in Filling(s) <==> b in place && place[b].InThread? && pcs[place[b].t].Sending?
    ensures b in BeingFreed(s) <==> b in place && place[b].InThread? && pcs[place[b].t].Freeing?
    ensures b in place && place[b].InThread? ==> pcs[place[b].t].Sending? || pcs[place[b].t].Freeing?
  {
    if b in place && place[b].InThread? {
      assert Carried(pcs[place[b].t]) == Some(b);
    }
  }

  lemma QueueKinds(s: State, b: Block)
    requires QueuePlaces(s.queues, s.popped, s.place) && s.place.Keys == s.heap.Keys
    ensures b in InQueues(s) <==> b in s.place && s.place[b].Queued?
  {
    if b in s.place && s.place[b].Queued? {
      assert InQueue(s, b, s.place[b].m, s.place[b].n - |s.popped[s.place[b].m]|);
    }
  }

  lemma OtherKinds(s: State, b: Block)
    requires HeldPlaces(s.held, s.place) && DropPlaces(s.dropped, s.place)
    ensures b in s.held <==> b in s.place && s.place[b].Client?
    ensures b in s.dropped <==> b in s.place && s.place[b].Dropped?
  {
  }

  lemma Places(s: State)
    requires OwnInv(s)
    ensures s.heap.Keys == Filling(s) + InQueues(s) + s.held.Keys + BeingFreed(s) + s.dropped
    ensures Filling(s) !! InQueues(s) !! s.held.Keys !! BeingFreed(s) !! s.dropped
  {
    hide ThreadPlaces, QueuePlaces, HeldPlaces, DropPlaces, Filling, InQueues, BeingFreed;
    forall b: Block
      ensures b in s.heap <==>
              b in Filling(s) || b in InQueues(s) || b in s.held.Keys || b in BeingFreed(s) || b in s.dropped
      ensures b in Filling(s) ==> b !in InQueues(s) && b !in s.held.Keys && b !in BeingFreed(s) && b !in s.dropped
      ensures b in InQueues(s) ==> b !in s.held.Keys && b !in BeingFreed(s) && b !in s.dropped
      ensures b in s.held.Keys ==> b !in BeingFreed(s) && b !in s.dropped
      ensures b in BeingFreed(s) ==> b !in s.dropped
    {
      ThreadKinds(s.pcs, s.place, s, b);
      QueueKinds(s, b);
      OtherKinds(s, b);
    }
  }

  /** Within a kind the owner is unique as well: one thread, one queue position. */
  lemma UniqueOwner(c: Config, s: State, b: Block)
    requires Reachable(c, s)
    ensures forall t, u {:trigger s.pcs[t], s.pcs[u]} ::
              t in s.pcs && u in s.pcs && Carried(s.pcs[t]) == Some(b) == Carried(s.pcs[u]) ==> t == u
    ensures forall m, k, m', k' :: InQueue(s, b, m, k) && InQueue(s, b, m', k') ==> m == m' && k == k'
  {
    hide Reachable, SendInv, PayloadInv, PoolInv, HistoryInv, WakeInv, TimerInv;
    hide ThreadPlaces, QueuePlaces, HeldPlaces, DropPlaces, Carried, InQueue;
    ReachableParts(c, s);
    OneCarrier(s.pcs, s.place, b);
    OnePosition(s, b);
  }

  lemma OneCarrier(pcs: map<Tid, PC>, place: map<Block, Place>, b: Block)
    requires ThreadPlaces(pcs, place)
    ensures forall t, u {:trigger pcs[t], pcs[u]} ::
              t in pcs && u in pcs && Carried(pcs[t]) == Some(b) == Carried(pcs[u]) ==> t == u
  {
  }

  lemma OnePosition(s: State, b: Block)
    requires QueuePlaces(s.queues, s.popped, s.place)
    ensures forall m, k, m', k' :: InQueue(s, b, m, k) && InQueue(s, b, m', k') ==> m == m' && k == k'
  {
  }

  // Pool counters -----------------------------------------------------------------------------------

  lemma AtMostOneAlloc(c: Config, s: State, p: Pool)
    requires SendInv(c, s) && PoolInv(c, s)
    ensures |Where(s.pcs, MidAlloc(c, p))| <= 1
    ensures Where(s.pcs, MidAlloc(c, p)) != {} ==> s.free.Get(p) >= 1
  {
    var w := Where(s.pcs, MidAlloc(c, p));
    if w != {} {
      var t :| t in w;
      assert w == {t};
    }
  }

  /** The block being allocated is counted among those in use. */
  lemma AllocatingCounts(c: Config, s: State, p: Pool)
    requires PayloadInv(c, s) && Where(s.pcs, MidAlloc(c, p)) != {}
    ensures Outstanding(s.heap, p) != {}
  {
    var t :| t in Where(s.pcs, MidAlloc(c, p));
    CellsOfThread(c, s, t);
    assert s.pcs[t].st.b in Outstanding(s.heap, p);
  }

  /** m_size never goes below zero or above the capacity, and no more blocks are in use than the capacity. */
  lemma PoolCounterSafety(c: Config, s: State, p: Pool)
    requires Reachable(c, s) && c.sizes.RoutesOk()
    ensures 0 <= s.free.Get(p) <= c.sizes.Cap(p)
    ensures |Outstanding(s.heap, p)| <= c.sizes.Cap(p)
    ensures s.free.Get(p) + |Outstanding(s.heap, p)| + |Where(s.pcs, MidFree(p))| - |Where(s.pcs, MidAlloc(c, p))|
            == c.sizes.Cap(p)
  {
    hide Reachable, SendInv, OwnInv, PayloadInv, HistoryInv, WakeInv, TimerInv, Where, Outstanding;
    ReachableParts(c, s);
    AtMostOneAlloc(c, s, p);
    if Where(s.pcs, MidAlloc(c, p)) != {} {
      AllocatingCounts(c, s, p);
    }
  }

  /** Between the check and the decrement no other thread can empty the pool. */
  lemma DecrementSafe(c: Config, s: State, t: Tid)
    requires Reachable(c, s) && c.sizes.RoutesOk() && t in s.pcs
    requires s.pcs[t].Sending? && (s.pcs[t].st.Checked? || s.pcs[t].st.Got?)
    ensures s.free.Get(PoolOf(c, s.pcs[t])) >= 1
  {
    hide Reachable, SendInv, OwnInv, PayloadInv, HistoryInv, WakeInv, TimerInv, Balanced;
    ReachableParts(c, s);
  }

  ghost predicate Quiescent(s: State) {
    && (forall t {:trigger s.pcs[t]} :: t in s.pcs ==> s.pcs[t].Idle?)
    && (forall m {:trigger s.queues[m]} :: m in s.queues ==> s.queues[m] == [])
    && s.held == map[]
  }

  lemma AtRest(c: Config, s: State)
    requires Quiescent(s)
    ensures Filling(s) == {} && BeingFreed(s) == {} && InQueues(s) == {} && s.held.Keys == {}
    ensures forall p: Pool :: Where(s.pcs, MidFree(p)) == {} && Where(s.pcs, MidAlloc(c, p)) == {}
  {
  }

  lemma AllDropped(s: State, p: Pool)
    requires s.heap.Keys == s.dropped
    ensures DroppedFrom(s.dropped, s.heap, p) == Outstanding(s.heap, p)
  {
  }

  lemma LeakCount(c: Config, s: State, p: Pool)
    requires Reachable(c, s) && c.sizes.RoutesOk() && Quiescent(s)
    ensures s.heap.Keys == s.dropped
    ensures s.free.Get(p) == c.sizes.Cap(p) - RefusedCopies(c, s.log, p)
  {
    hide Reachable, SendInv, MonitorInv, OwnInv, PayloadInv, HistoryInv, WakeInv, TimerInv;
    hide Where, Outstanding, DroppedFrom;
    hide Filling, BeingFreed, InQueues, Reserved, RefusedCopies, Quiescent;
    ReachableParts(c, s);
    OwnershipPartition(c, s);
    AtRest(c, s);
    AllDropped(s, p);
  }

  /**
   * At rest, with every message received and released, each pool has lost exactly one block for each copy of data that
   * a full queue refused and that had been taken from it. So both counters are back at capacity if and only if no
   * queue ever refused a copy of data.
   */
  lemma NothingElseLeaks(c: Config, s: State)
    requires Reachable(c, s) && c.sizes.RoutesOk() && Quiescent(s)
    ensures forall p: Pool :: s.free.Get(p) == c.sizes.Cap(p) - RefusedCopies(c, s.log, p)
    ensures s.free == Counters(c.sizes.smallCap, c.sizes.largeCap) <==> !SomeRefused(s.log)
    ensures s.heap.Keys == s.dropped
  {
    hide Reachable, RefusedCopies, SomeRefused, Quiescent;
    LeakCount(c, s, Small);
    LeakCount(c, s, Large);
    SomeRefusedIff(c, s.log);
  }

  // Contents ----------------------------------------------------------------------------------------

  /** The value a broadcast was called with. */
  ghost function Sent(s: State, e: Entry): SendOp
    requires e.num < |s.log|
  {
    s.log[e.num].op
  }

  ghost predicate Delivers(s: State, e: Entry) {
    && e.num < |s.log| && e.msg.lab == Sent(s, e).lab
    && (Sent(s, e).data.None? ==> e.msg.data.None? && forall n :: e.msg.As(s.heap, n) == None)
    && (Sent(s, e).data.Some? ==>
          var data := Sent(s, e).data.value;
          && e.msg.data.Some? && e.msg.data.value in s.heap
          && Contains(s.heap[e.msg.data.value], data)
          && (e.msg.As(s.heap, |data|) == Some(data) <==> |data| < 65536))
  }

  lemma IntactDelivers(c: Config, s: State, e: Entry)
    requires EntryOk(c, s.log, s.heap, e, true)
    ensures Delivers(s, e)
  {
    var op := s.log[e.num].op;
    if op.data.Some? {
      AsIff(s.heap, op.lab, op.data.value, e.msg.data.value, 0);
    }
  }

  /**
   * A queued message, or a received one its client has not written to, carries its sender's label and bytes;
   * as<T> yields the value exactly when sizeof(T) fits in 16 bits.
   */
  lemma PayloadIntegrity(c: Config, s: State)
    requires Reachable(c, s)
    ensures forall m, k {:trigger s.queues[m][k]} ::
              m in s.queues && 0 <= k < |s.queues[m]| ==> Delivers(s, s.queues[m][k])
    ensures forall b {:trigger s.held[b]} ::
              b in s.held && !s.held[b].written ==> s.held[b].e.msg.data == Some(b) && Delivers(s, s.held[b].e)
  {
    hide Reachable, SendInv, PoolInv, HistoryInv, WakeInv, TimerInv, Delivers, EntryOk;
    hide ThreadPlaces, QueuePlaces, DropPlaces, ThreadCells, CellsOk;
    ReachableParts(c, s);
    forall m: Mid, k: nat {:trigger s.queues[m][k]} | m in s.queues && k < |s.queues[m]|
      ensures Delivers(s, s.queues[m][k])
    {
      IntactDelivers(c, s, s.queues[m][k]);
    }
    forall b: Block {:trigger s.held[b]} | b in s.held && !s.held[b].written
      ensures Delivers(s, s.held[b].e)
    {
      IntactDelivers(c, s, s.held[b].e);
    }
  }

  /** Every release under way gives its block back to the pool it came from. */
  lemma ReleaseGoesHome(c: Config, s: State, t: Tid)
    requires Reachable(c, s) && c.sizes.RoutesOk() && t in s.pcs && s.pcs[t].Freeing?
    ensures s.pcs[t].b in s.heap && s.heap[s.pcs[t].b].pool == s.pcs[t].pool
  {
    hide Reachable, SendInv, OwnInv, PayloadInv, HistoryInv, WakeInv, TimerInv;
    ReachableParts(c, s);
    CellsOfThread(c, s, t);
  }

  // Order -------------------------------------------------------------------------------------------

  /** Everything mailbox m has ever accepted, oldest first. */
  ghost function Accepted(s: State, m: Mid): seq<Entry>
    requires m in s.queues && m in s.popped
  {
    s.popped[m] + s.queues[m]
  }

  /** The history of a mailbox is the send log expanded for it, and no queue exceeds its capacity. */
  lemma LogRefinement(c: Config, s: State, m: Mid)
    requires Reachable(c, s) && m in c.caps
    ensures m in s.queues && m in s.popped
    ensures Accepted(s, m) == Expand(s.log, m)
    ensures forall e :: e in Accepted(s, m) <==> IsCopy(s.log, m, e)
    ensures |s.queues[m]| <= c.caps[m]
  {
    hide Reachable, OwnInv, PayloadInv, PoolInv, WakeInv, TimerInv, Exclusion, PcsOk, LogOk, CurrentOk;
    ReachableParts(c, s);
    forall e: Entry
      ensures e in Accepted(s, m) <==> IsCopy(s.log, m, e)
    {
      ExpandMembers(s.log, m, e);
    }
  }

  /** Histories follow the order of the broadcasts, strictly so by broadcast and slot. */
  lemma HistoryOrdered(c: Config, s: State, m: Mid)
    requires Reachable(c, s) && m in c.caps
    ensures m in s.queues && m in s.popped
    ensures Ordered(Accepted(s, m))
  {
    LogRefinement(c, s, m);
    ExpandOrdered(s.log, m);
  }

  /** Two mailboxes never disagree on the order of two broadcasts that both accepted. */
  lemma TotalOrder(c: Config, s: State, m: Mid, i: nat, j: nat, m': Mid, i': nat, j': nat)
    requires Reachable(c, s) && m in c.caps && m' in c.caps
    requires m in s.queues && m in s.popped && m' in s.queues && m' in s.popped
    requires i < |Accepted(s, m)| && j < |Accepted(s, m)| && i' < |Accepted(s, m')| && j' < |Accepted(s, m')|
    requires Accepted(s, m)[i].num == Accepted(s, m')[i'].num
    requires Accepted(s, m)[j].num == Accepted(s, m')[j'].num
    requires Accepted(s, m)[i].num != Accepted(s, m)[j].num
    ensures i < j <==> i' < j'
  {
    HistoryOrdered(c, s, m);
    HistoryOrdered(c, s, m');
  }

  /** A mailbox registered once for a label gets at most one copy of each broadcast. */
  lemma OneSlotOneCopy(c: Config, s: State, m: Mid, i: nat, j: nat)
    requires Reachable(c, s) && m in c.caps && m in s.queues && m in s.popped
    requires i < j < |Accepted(s, m)| && Accepted(s, m)[i].num < |s.log|
    requires var r := s.log[Accepted(s, m)[i].num];
             forall x, y :: 0 <= x < |r.slots| && 0 <= y < |r.slots| && r.slots[x] == Some(m) == r.slots[y] ==> x == y
    ensures Accepted(s, m)[i].num < Accepted(s, m)[j].num
  {
    HistoryOrdered(c, s, m);
    LogRefinement(c, s, m);
    assert Accepted(s, m)[i] in Accepted(s, m) && Accepted(s, m)[j] in Accepted(s, m);
    assert IsCopy(s.log, m, Accepted(s, m)[i]) && IsCopy(s.log, m, Accepted(s, m)[j]);
  }

  // Results -----------------------------------------------------------------------------------------

  /** Slot i of broadcast n got its own copy. */
  ghost predicate GotCopy(s: State, n: nat, i: nat)
    requires n < |s.log| && i < |s.log[n].slots| && s.log[n].slots[i].Some?
  {
    var m := s.log[n].slots[i].value;
    && m in s.queues && m in s.popped
    && exists d :: EntryOf(s.log[n].op, d, n, i) in Accepted(s, m)
  }

  /** SendMessage returns true if and only if every occupied slot of the label got its own copy. */
  lemma SendResult(c: Config, s: State, n: nat)
    requires Reachable(c, s) && n < |s.log| && s.log[n].ret.Some? && s.log[n].op.data.Some?
    ensures s.log[n].ret.value <==>
            forall i :: 0 <= i < |s.log[n].slots| && s.log[n].slots[i].Some? ==> GotCopy(s, n, i)
  {
    hide Reachable, SendInv, OwnInv, PayloadInv, PoolInv, HistoryInv, WakeInv, TimerInv, GotCopy;
    ReachableParts(c, s);
    var r := s.log[n];
    RecordsOk(c, s, n);
    forall i | 0 <= i < |r.slots| && r.slots[i].Some?
      ensures GotCopy(s, n, i) <==> r.outs[i].Accepted?
    {
      CopyIffAccepted(c, s, n, i);
    }
  }

  lemma CopyIffAccepted(c: Config, s: State, n: nat, i: nat)
    requires Reachable(c, s) && n < |s.log| && |s.log[n].outs| == |s.log[n].slots|
    requires i < |s.log[n].slots| && s.log[n].slots[i].Some? && s.log[n].slots[i].value in c.caps
    ensures GotCopy(s, n, i) <==> s.log[n].outs[i].Accepted?
  {
    var r, m := s.log[n], s.log[n].slots[i].value;
    LogRefinement(c, s, m);
    if r.outs[i].Accepted? {
      assert IsCopy(s.log, m, EntryOf(r.op, r.outs[i].data, n, i));
    }
    if d: Option<Block> :| EntryOf(r.op, d, n, i) in Accepted(s, m) {
      assert IsCopy(s.log, m, EntryOf(r.op, d, n, i));
    }
  }

  /** SendSignal returns true whatever happened to the copies. */
  lemma SignalResult(c: Config, s: State, n: nat)
    requires Reachable(c, s) && n < |s.log| && s.log[n].ret.Some? && s.log[n].op.data.None?
    ensures s.log[n].ret.value
  {
    hide Reachable, SendInv, OwnInv, PayloadInv, PoolInv, HistoryInv, WakeInv, TimerInv;
    ReachableParts(c, s);
    RecordsOk(c, s, n);
  }
}

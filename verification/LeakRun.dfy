/** A run at whose end nothing is in use and a pool is still short of a block. */
module LeakRun {
  import opened Messages
  import opened Receiver
  import opened Threads
  import opened System
  import opened Leaks
  import opened Ownership
  import opened Delivery
  import opened Invariant
  import opened Misrouting
  import opened Scenarios

  /** Mailbox m in the first two slots of label 0 and no other mailbox there. */
  ghost predicate TwoSlots(s: State, m: Mid) {
    && 0 in s.slots && 2 <= |s.slots[0]| && s.slots[0][0] == Some(m) == s.slots[0][1]
    && forall j :: 2 <= j < |s.slots[0]| ==> s.slots[0][j].None?
  }

  lemma RegisterTwice(c: Config, s: State, t: Tid, m: Mid) returns (s': State)
    requires Reachable(c, s) && t in s.pcs && Untouched(c, s, m) && m in c.caps
    requires 2 <= c.maxReceivers && s.slots[0] == Empties(c.maxReceivers)
    ensures Reachable(c, s') && s' == s.(slots := s'.slots) && Untouched(c, s', m) && TwoSlots(s', m)
  {
    hide Reachable;
    var s1 := Enrol(c, s, t, 0, m);
    assert FirstFree(s.slots[0]) == 0;
    s' := Enrol(c, s1, t, 0, m);
    SecondFree(s1.slots[0]);
  }

  lemma SecondFree(slots: seq<Option<Mid>>)
    requires 2 <= |slots| && slots[0].Some? && slots[1].None?
    ensures FirstFree(slots) == 1
  {
    assert FirstFree(slots[1..]) == 0;
  }

  /** The queue takes the first copy and refuses the second, and the sender returns. */
  lemma SendBoth(c: Config, s: State, t: Tid, m: Mid, data: seq<Byte>) returns (s': State)
    requires Reachable(c, s) && t in s.pcs && Untouched(c, s, m) && TwoSlots(s, m)
    requires m in c.caps && c.caps[m] == 1 && 0 < |data| <= c.sizes.largeSize
    requires c.sizes.Cap(c.sizes.SendPool(|data|)) >= 2
    ensures Reachable(c, s') && s'.pcs == s.pcs
    ensures m in s'.queues && s'.queues == s.queues[m := s'.queues[m]] && m in s'.popped
    ensures |s'.queues[m]| == 1 && s'.queues[m][0].msg.data == Some(0)
    ensures s'.held == map[] && s'.dropped == s.dropped + {1}
  {
    hide Reachable;
    var op := SendOp(0, Some(data), User);
    var s1 := Begin(c, s, t, 0, data);
    var s2 := Deliver(c, s1, t, op, 0, true, 0, m);
    hide Untouched;
    var s3 := Drop(c, s2, t, op, 1, true, 1, m);
    s' := SkipRest(c, s3, t, op, 2, false);
    assert s'.pcs == s.pcs;
  }

  /** The one message left is received and released. */
  lemma TidyUp(c: Config, s: State, t: Tid, m: Mid) returns (s': State)
    requires Reachable(c, s) && t in s.pcs && (forall x :: x in s.pcs ==> s.pcs[x] == Idle) && s.held == map[]
    requires m in c.caps && m in s.queues && m in s.popped && (forall x :: x in s.queues && x != m ==> s.queues[x] == [])
    requires |s.queues[m]| == 1 && s.queues[m][0].msg.data == Some(0)
    ensures Reachable(c, s') && Quiescent(s') && s'.dropped == s.dropped
  {
    hide Reachable;
    var e := s.queues[m][0];
    assert s.queues[m] == [e];
    var s1 := Receive(c, s, t, m, e, 0);
    s' := Free(c, s1, t, 0);
    assert s'.held == map[];
  }

  /** From the initial state to the message in the queue and the lost block. */
  lemma LoseOne(c: Config, s: State, t: Tid, m: Mid) returns (s': State)
    requires Init(c, s) && t in s.pcs && m in c.caps && c.caps[m] == 1 && 2 <= c.maxReceivers
    requires 1 <= c.sizes.largeSize && 2 <= c.sizes.Cap(c.sizes.SendPool(1))
    ensures Reachable(c, s') && s'.pcs == s.pcs && (forall x :: x in s.pcs ==> s.pcs[x] == Idle) && s'.held == map[]
    ensures m in s'.queues && m in s'.popped && (forall x :: x in s'.queues && x != m ==> s'.queues[x] == [])
    ensures |s'.queues[m]| == 1 && s'.queues[m][0].msg.data == Some(0) && 1 in s'.dropped
  {
    hide Reachable, Init, TwoSlots, Untouched;
    InitFacts(c, s);
    InitUntouched(c, s, m);
    var s1 := RegisterTwice(c, s, t, m);
    s' := SendBoth(c, s1, t, m, [0]);
  }

  /**
   * A mailbox of capacity one in two slots of a label: one message sent, received and released, everything at rest,
   * and the pool one block short.
   */
  lemma LeakReachable(c: Config, s: State, t: Tid, m: Mid)
    requires Init(c, s) && t in s.pcs && m in c.caps && c.caps[m] == 1 && 2 <= c.maxReceivers
    requires 1 <= c.sizes.largeSize && 2 <= c.sizes.Cap(c.sizes.SendPool(1)) && c.sizes.RoutesOk()
    ensures exists s' :: Reachable(c, s') && Quiescent(s') && s'.free != Counters(c.sizes.smallCap, c.sizes.largeCap)
  {
    hide Reachable, Init, Quiescent;
    var s1 := LoseOne(c, s, t, m);
    var s2 := TidyUp(c, s1, t, m);
    DroppedRefused(c, s2, 1);
    NothingElseLeaks(c, s2);
  }

  lemma DroppedInHeap(s: State, b: Block)
    requires OwnInv(s) && b in s.dropped
    ensures b in s.heap && b in DroppedFrom(s.dropped, s.heap, s.heap[b].pool)
  {
  }

  /** Every dropped block is on record. */
  lemma DroppedRefused(c: Config, s: State, b: Block)
    requires Reachable(c, s) && b in s.dropped
    ensures SomeRefused(s.log)
  {
    hide Reachable, OwnInv, SomeRefused, DroppedFrom, RefusedCopies;
    ReachableParts(c, s);
    DroppedInHeap(s, b);
    SomeRefusedIff(c, s.log);
  }
}

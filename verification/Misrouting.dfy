/**
 * The condition RoutesOk is exact: in a configuration without it one message, sent, received and released, leaves the
 * small pool's counter above its capacity.
 */
module Misrouting {
  import opened Messages
  import opened Receiver
  import opened Threads
  import opened System
  import opened Invariant
  import opened Delivery
  import opened Scenarios

  /** Threads idle, nothing sent or received, and mailbox m empty. */
  ghost predicate Untouched(c: Config, s: State, m: Mid) {
    && (forall x :: x in s.pcs ==> s.pcs[x] == Idle)
    && m in s.queues && m in s.popped && s.queues[m] == [] && s.asleep == {} && 0 in s.slots
    && s.free == Counters(c.sizes.smallCap, c.sizes.largeCap) && s.heap == map[] && s.held == map[]
  }

  lemma InitUntouched(c: Config, s: State, m: Mid)
    requires Init(c, s) && m in c.caps
    ensures Untouched(c, s, m) && s.slots[0] == Empties(c.maxReceivers)
  {
  }

  /** A size that is allocated from the large pool and released to the small one. */
  lemma MisroutedSize(z: Sizes) returns (size: nat)
    requires !z.RoutesOk()
    ensures z.smallSize < size <= z.largeSize && z.ReleasePool(Narrow(size)) == Small
  {
    RoutingIff(z);
    size :| 0 < size <= z.largeSize && z.ReleasePool(Narrow(size)) != z.SendPool(size);
  }

  /** A large message in the queue of the mailbox in label 0's first slot, the broadcast being at the next slot. */
  lemma SendLarge(c: Config, s: State, t: Tid, m: Mid, data: seq<Byte>) returns (s': State)
    requires Reachable(c, s) && t in s.pcs && Untouched(c, s, m) && m in c.caps && 0 < c.caps[m]
    requires 0 < |s.slots[0]| && s.slots[0][0] == Some(m) && 0 < c.sizes.largeCap
    requires c.sizes.smallSize < |data| <= c.sizes.largeSize
    ensures var op := SendOp(0, Some(data), User);
            && Reachable(c, s') && s'.pcs == s.pcs[t := Sending(op, 1, true, AtSlot)]
            && m in s'.queues && s'.queues[m] == [EntryOf(op, Some(0), |s.log|, 0)] && m in s'.popped
            && s'.free.small == c.sizes.smallCap
  {
    hide Reachable;
    var op := SendOp(0, Some(data), User);
    var s1 := Begin(c, s, t, 0, data);
    s' := Deliver(c, s1, t, op, 0, true, 0, m);
    assert s'.pcs == s.pcs[t := Sending(op, 1, true, AtSlot)];
    assert s'.queues[m] == [] + [EntryOf(op, Some(0), |s.log|, 0)];
  }

  /** Register, send, receive, release: the small pool has gained an element it never gave out. */
  lemma SmallOverflows(c: Config, s: State, t: Tid, u: Tid, m: Mid) returns (s': State)
    requires Init(c, s) && t in s.pcs && u in s.pcs && t != u && m in c.caps && 0 < c.caps[m]
    requires 0 < c.maxReceivers && 0 < c.sizes.largeCap && !c.sizes.RoutesOk()
    ensures Reachable(c, s') && s'.free.small == c.sizes.smallCap + 1
  {
    hide Reachable, Init;
    InitFacts(c, s);
    InitUntouched(c, s, m);
    var size := MisroutedSize(c.sizes);
    var data: seq<Byte> := seq(size, _ => 0);
    var s1 := Enrol(c, s, t, 0, m);
    assert FirstFree(s.slots[0]) == 0;
    var s2 := SendLarge(c, s1, t, m, data);
    var s3 := Receive(c, s2, u, m, s2.queues[m][0], 0);
    s' := Free(c, s3, u, 0);
  }

  predicate CountersOk(c: Config, s: State) {
    0 <= s.free.small <= c.sizes.smallCap && 0 <= s.free.large <= c.sizes.largeCap
  }

  /**
   * With two threads, a mailbox that can hold a message, and a large pool that is not empty, the counters stay within
   * their capacities in every reachable state if and only if RoutesOk.
   */
  lemma CountersSafeIff(c: Config, s: State, t: Tid, u: Tid, m: Mid)
    requires Init(c, s) && t in s.pcs && u in s.pcs && t != u && m in c.caps && 0 < c.caps[m]
    requires 0 < c.maxReceivers && 0 < c.sizes.largeCap
    ensures c.sizes.RoutesOk() <==> forall s' :: Reachable(c, s') ==> CountersOk(c, s')
  {
    hide Reachable, Init;
    if c.sizes.RoutesOk() {
      forall s' | Reachable(c, s')
        ensures CountersOk(c, s')
      {
        PoolCounterSafety(c, s', Small);
        PoolCounterSafety(c, s', Large);
      }
    } else {
      var s' := SmallOverflows(c, s, t, u, m);
      assert !CountersOk(c, s');
    }
  }
}

/** Uninterrupted calls as runs: building blocks for the runs that show what can happen. */
module Scenarios {
  import opened Messages
  import opened Receiver
  import opened Threads
  import opened System
  import opened Invariant

  lemma Go(c: Config, s: State, t: Tid, a: Act) returns (s': State)
    requires Reachable(c, s) && Can(c, s, t, a)
    ensures s' == Do(c, s, t, a) && Reachable(c, s')
  {
    hide *;
    Extend(c, s, t, a);
    s' := Do(c, s, t, a);
  }

  /** The initial state, without unfolding Init. */
  lemma InitFacts(c: Config, s: State)
    requires Init(c, s)
    ensures Reachable(c, s) && (forall x :: x in s.pcs ==> s.pcs[x] == Idle)
    ensures (forall x :: x in s.queues ==> s.queues[x] == []) && s.held == map[]
    ensures forall l: Label :: l in s.slots && s.slots[l] == Empties(c.maxReceivers)
    ensures s.tm == Timers([], map[], {}, {}, {}, [], false)
    ensures s.free == Counters(c.sizes.smallCap, c.sizes.largeCap)
  {
    InitReachable(c, s);
  }

  ghost predicate OthersIdle(pcs: map<Tid, PC>, t: Tid) {
    forall x :: x in pcs && x != t ==> pcs[x] == Idle
  }

  // Registration ------------------------------------------------------------------------------------

  lemma AskToRegister(c: Config, s: State, t: Tid, l: Label, m: Mid) returns (s': State)
    requires Reachable(c, s) && t in s.pcs && s.pcs[t] == Idle && MboxFree(s.pcs) && m in c.caps
    ensures Reachable(c, s') && s' == s.(pcs := s.pcs[t := Reg(l, m, true, DoG)])
  {
    hide Reachable;
    var s1 := Go(c, s, t, Rgs(StartReg(l, m, true)));
    assert s1 == s.(pcs := s.pcs[t := Reg(l, m, true, WantG)]);
    s' := Go(c, s1, t, Rgs(LockG));
    assert s'.pcs == s.pcs[t := Reg(l, m, true, DoG)];
  }

  lemma Enrol(c: Config, s: State, t: Tid, l: Label, m: Mid) returns (s': State)
    requires Reachable(c, s) && t in s.pcs && s.pcs[t] == Idle && MboxFree(s.pcs) && m in c.caps && l in s.slots
    ensures Reachable(c, s') && s' == s.(slots := s.slots[l := AddSlot(s.slots[l], m)])
  {
    hide Reachable, AddSlot;
    var s1 := AskToRegister(c, s, t, l, m);
    hide MboxFree;
    var s2 := Go(c, s1, t, Rgs(DoReg));
    assert s2.pcs == s.pcs[t := Reg(l, m, true, LeaveG)];
    s' := Go(c, s2, t, Rgs(UnlockG));
    assert s'.pcs == s.pcs;
  }

  // Broadcasts --------------------------------------------------------------------------------------

  /** A call takes the mailbox mutex. */
  lemma Enter(c: Config, s: State, t: Tid, op: SendOp) returns (s': State)
    requires Reachable(c, s) && t in s.pcs && s.pcs[t] == SWant(op) && MboxFree(s.pcs)
    requires op.lab in s.slots && !TooLarge(c, op)
    ensures Reachable(c, s')
    ensures s' == s.(pcs := s.pcs[t := Sending(op, 0, true, AtSlot)],
                     log := s.log + [SendRec(op, s.slots[op.lab], [], None)])
  {
    hide Reachable;
    s' := Go(c, s, t, Snd(Lock));
  }

  lemma Begin(c: Config, s: State, t: Tid, l: Label, data: seq<Byte>) returns (s': State)
    requires Reachable(c, s) && t in s.pcs && s.pcs[t] == Idle && MboxFree(s.pcs)
    requires l in s.slots && 0 < |data| <= c.sizes.largeSize
    ensures var op := SendOp(l, Some(data), User);
            && Reachable(c, s')
            && s' == s.(pcs := s.pcs[t := Sending(op, 0, true, AtSlot)],
                        log := s.log + [SendRec(op, s.slots[l], [], None)])
  {
    hide Reachable;
    var op := SendOp(l, Some(data), User);
    var s1 := Go(c, s, t, Snd(Start(l, Some(data))));
    assert s1 == s.(pcs := s.pcs[t := SWant(op)]);
    s' := Enter(c, s1, t, op);
    assert s'.pcs == s.pcs[t := Sending(op, 0, true, AtSlot)];
  }

  lemma CheckPool(c: Config, s: State, t: Tid, op: SendOp, i: nat, ok: bool) returns (s': State)
    requires Reachable(c, s) && t in s.pcs && s.pcs[t] == Sending(op, i, ok, AtSlot) && AtData(s, s.pcs[t])
    requires 0 < s.free.Get(PoolOf(c, s.pcs[t]))
    ensures Reachable(c, s') && s' == s.(pcs := s.pcs[t := Sending(op, i, ok, Checked)])
  {
    hide Reachable;
    s' := Go(c, s, t, Snd(Check));
  }

  lemma Count(c: Config, s: State, t: Tid, op: SendOp, i: nat, ok: bool, b: Block) returns (s': State)
    requires Reachable(c, s) && t in s.pcs && s.pcs[t] == Sending(op, i, ok, Got(b))
    ensures Reachable(c, s') && s' == s.(pcs := s.pcs[t := Sending(op, i, ok, Fill(b))],
                                          free := s.free.Add(PoolOf(c, s.pcs[t]), -1))
  {
    hide Reachable;
    s' := Go(c, s, t, Snd(Decrement));
  }

  lemma Allocate(c: Config, s: State, t: Tid, op: SendOp, i: nat, ok: bool, b: Block) returns (s': State)
    requires Reachable(c, s) && t in s.pcs && s.pcs[t] == Sending(op, i, ok, Checked) && op.data.Some?
    requires b !in s.heap && |op.data.value| <= c.sizes.EltSize(PoolOf(c, s.pcs[t]))
    ensures Reachable(c, s')
    ensures s' == s.(pcs := s.pcs[t := Sending(op, i, ok, Got(b))], heap := s'.heap, place := s'.place)
    ensures s'.heap.Keys == s.heap.Keys + {b} && |op.data.value| <= |s'.heap[b].bytes|
  {
    hide Reachable;
    s' := Go(c, s, t, Snd(PmrOk(b, seq(c.sizes.EltSize(PoolOf(c, s.pcs[t])), _ => 0))));
  }

  /** A block for the slot the broadcast is at. */
  lemma TakeBlock(c: Config, s: State, t: Tid, op: SendOp, i: nat, ok: bool, b: Block) returns (s': State)
    requires Reachable(c, s) && t in s.pcs && s.pcs[t] == Sending(op, i, ok, AtSlot) && AtData(s, s.pcs[t])
    requires var p := PoolOf(c, s.pcs[t]);
             b !in s.heap && 0 < s.free.Get(p) && |op.data.value| <= c.sizes.EltSize(p)
    ensures Reachable(c, s')
    ensures s' == s.(pcs := s.pcs[t := Sending(op, i, ok, Fill(b))], free := s.free.Add(PoolOf(c, s.pcs[t]), -1),
                     heap := s'.heap, place := s'.place)
    ensures s'.heap.Keys == s.heap.Keys + {b} && |op.data.value| <= |s'.heap[b].bytes|
  {
    hide Reachable;
    var s1 := CheckPool(c, s, t, op, i, ok);
    hide AtData;
    var s2 := Allocate(c, s1, t, op, i, ok, b);
    s' := Count(c, s2, t, op, i, ok, b);
    assert s'.pcs == s.pcs[t := Sending(op, i, ok, Fill(b))];
  }

  lemma LockQ(c: Config, s: State, t: Tid, op: SendOp, i: nat, ok: bool, d: Option<Block>, m: Mid) returns (s': State)
    requires Reachable(c, s) && t in s.pcs && s.pcs[t] == Sending(op, i, ok, WantQ(m, d)) && QueueFree(s.pcs, m)
    ensures Reachable(c, s') && s' == s.(pcs := s.pcs[t := Sending(op, i, ok, InQ(m, d))])
  {
    hide Reachable;
    s' := Go(c, s, t, Snd(LockQueue));
  }

  lemma CompareSize(c: Config, s: State, t: Tid, op: SendOp, i: nat, ok: bool, d: Option<Block>, m: Mid)
    returns (s': State)
    requires Reachable(c, s) && t in s.pcs && s.pcs[t] == Sending(op, i, ok, InQ(m, d)) && m in s.queues && m in c.caps
    ensures Reachable(c, s') && s' == s.(pcs := s.pcs[t := Sending(op, i, ok, Tested(m, d, |s.queues[m]| < c.caps[m]))])
  {
    hide Reachable;
    s' := Go(c, s, t, Snd(TestRoom));
  }

  lemma Load(c: Config, s: State, t: Tid, op: SendOp, i: nat, ok: bool, b: Block, m: Mid) returns (s': State)
    requires Reachable(c, s) && t in s.pcs && s.pcs[t] == Sending(op, i, ok, Fill(b))
    requires op.data.Some? && b in s.heap && |op.data.value| <= |s.heap[b].bytes|
    requires op.lab in s.slots && i < |s.slots[op.lab]| && s.slots[op.lab][i] == Some(m)
    ensures Reachable(c, s') && s'.heap.Keys == s.heap.Keys
    ensures s' == s.(pcs := s.pcs[t := Sending(op, i, ok, WantQ(m, Some(b)))], heap := s'.heap)
  {
    hide Reachable;
    s' := Go(c, s, t, Snd(Put(m)));
    hide Copied;
  }

  /** The value is copied and the queue's size looked at. */
  lemma Reach(c: Config, s: State, t: Tid, op: SendOp, i: nat, ok: bool, b: Block, m: Mid) returns (s': State)
    requires Reachable(c, s) && t in s.pcs && s.pcs[t] == Sending(op, i, ok, Fill(b)) && QueueFree(s.pcs, m)
    requires op.data.Some? && b in s.heap && |op.data.value| <= |s.heap[b].bytes|
    requires op.lab in s.slots && i < |s.slots[op.lab]| && s.slots[op.lab][i] == Some(m)
    requires m in s.queues && m in c.caps
    ensures Reachable(c, s') && s'.heap.Keys == s.heap.Keys
    ensures s' == s.(pcs := s.pcs[t := Sending(op, i, ok, Tested(m, Some(b), |s.queues[m]| < c.caps[m]))],
                     heap := s'.heap)
  {
    hide Reachable;
    var s1 := Load(c, s, t, op, i, ok, b, m);
    var s2 := LockQ(c, s1, t, op, i, ok, Some(b), m);
    hide QueueFree;
    s' := CompareSize(c, s2, t, op, i, ok, Some(b), m);
    assert s'.pcs == s.pcs[t := Sending(op, i, ok, Tested(m, Some(b), |s.queues[m]| < c.caps[m]))];
  }

  lemma NotifyNobody(c: Config, s: State, t: Tid, op: SendOp, i: nat, ok: bool, m: Mid) returns (s': State)
    requires Reachable(c, s) && t in s.pcs && s.pcs[t] == Sending(op, i, ok, Pushed(m)) && s.asleep == {}
    ensures Reachable(c, s') && s' == s.(pcs := s.pcs[t := Sending(op, i, ok, LeaveQ(m))])
  {
    hide Reachable;
    s' := Go(c, s, t, Snd(NotifyNone));
  }

  lemma UnlockQ(c: Config, s: State, t: Tid, op: SendOp, i: nat, ok: bool, m: Mid) returns (s': State)
    requires Reachable(c, s) && t in s.pcs && s.pcs[t] == Sending(op, i, ok, LeaveQ(m))
    ensures Reachable(c, s') && s' == s.(pcs := s.pcs[t := Sending(op, i + 1, ok, AtSlot)])
  {
    hide Reachable;
    s' := Go(c, s, t, Snd(UnlockQueue));
  }

  lemma Wake(c: Config, s: State, t: Tid, op: SendOp, i: nat, ok: bool, m: Mid) returns (s': State)
    requires Reachable(c, s) && t in s.pcs && s.pcs[t] == Sending(op, i, ok, Pushed(m)) && s.asleep == {}
    ensures Reachable(c, s') && s' == s.(pcs := s.pcs[t := Sending(op, i + 1, ok, AtSlot)])
  {
    hide Reachable;
    var s1 := NotifyNobody(c, s, t, op, i, ok, m);
    s' := UnlockQ(c, s1, t, op, i, ok, m);
    assert s'.pcs == s.pcs[t := Sending(op, i + 1, ok, AtSlot)];
  }

  lemma Queue(c: Config, s: State, t: Tid, op: SendOp, i: nat, ok: bool, b: Block, m: Mid) returns (s': State)
    requires Reachable(c, s) && t in s.pcs && s.pcs[t] == Sending(op, i, ok, Tested(m, Some(b), true))
    requires m in s.queues && m in c.caps && m in s.popped && 0 < |s.log| && s.asleep == {} && op.data.Some?
    ensures Reachable(c, s') && 0 < |s'.log|
    ensures s' == s.(pcs := s.pcs[t := Sending(op, i + 1, ok, AtSlot)], place := s'.place, log := s'.log,
                     queues := s.queues[m := s.queues[m] + [EntryOf(op, Some(b), |s.log| - 1, i)]])
  {
    hide Reachable, EntryOf;
    var s1 := Go(c, s, t, Snd(Push));
    assert s1 == s.(pcs := s.pcs[t := Sending(op, i, ok, Pushed(m))], place := s1.place, log := s1.log,
                    queues := s.queues[m := s.queues[m] + [EntryOf(op, Some(b), |s.log| - 1, i)]]);
    s' := Wake(c, s1, t, op, i, ok, m);
    assert s'.pcs == s.pcs[t := Sending(op, i + 1, ok, AtSlot)];
  }

  /** A full queue refuses the copy, and its block is lost. */
  lemma Lose(c: Config, s: State, t: Tid, op: SendOp, i: nat, ok: bool, b: Block, m: Mid) returns (s': State)
    requires Reachable(c, s) && t in s.pcs && s.pcs[t] == Sending(op, i, ok, Tested(m, Some(b), false))
    requires m in s.queues && m in c.caps && op.data.Some?
    ensures Reachable(c, s')
    ensures s' == s.(pcs := s.pcs[t := Sending(op, i + 1, false, AtSlot)], place := s'.place, log := s'.log,
                     dropped := s.dropped + {b})
  {
    hide Reachable;
    var s1 := Go(c, s, t, Snd(Refuse));
    assert s1.pcs == s.pcs[t := Sending(op, i, false, LeaveQ(m))];
    s' := UnlockQ(c, s1, t, op, i, false, m);
    assert s'.pcs == s.pcs[t := Sending(op, i + 1, false, AtSlot)];
  }

  /** Slot i holds m, and a block is to be had for it. */
  ghost predicate AtReceiver(c: Config, s: State, t: Tid, op: SendOp, i: nat, ok: bool, b: Block, m: Mid) {
    && t in s.pcs && s.pcs[t] == Sending(op, i, ok, AtSlot) && AtData(s, s.pcs[t]) && s.slots[op.lab][i] == Some(m)
    && b !in s.heap && 0 < s.free.Get(PoolOf(c, s.pcs[t])) && |op.data.value| <= c.sizes.EltSize(PoolOf(c, s.pcs[t]))
    && OthersIdle(s.pcs, t) && m in s.queues && m in c.caps && m in s.popped && 0 < |s.log| && s.asleep == {}
  }

  lemma UpToTest(c: Config, s: State, t: Tid, op: SendOp, i: nat, ok: bool, b: Block, m: Mid) returns (s': State)
    requires Reachable(c, s) && AtReceiver(c, s, t, op, i, ok, b, m)
    ensures Reachable(c, s') && s'.heap.Keys == s.heap.Keys + {b}
    ensures s' == s.(pcs := s.pcs[t := Sending(op, i, ok, Tested(m, Some(b), |s.queues[m]| < c.caps[m]))],
                     free := s.free.Add(PoolOf(c, s.pcs[t]), -1), heap := s'.heap, place := s'.place)
  {
    hide Reachable;
    var s1 := TakeBlock(c, s, t, op, i, ok, b);
    s' := Reach(c, s1, t, op, i, ok, b, m);
    assert s'.pcs == s.pcs[t := Sending(op, i, ok, Tested(m, Some(b), |s.queues[m]| < c.caps[m]))];
  }

  /** The copy for slot i is delivered. */
  lemma Deliver(c: Config, s: State, t: Tid, op: SendOp, i: nat, ok: bool, b: Block, m: Mid) returns (s': State)
    requires Reachable(c, s) && AtReceiver(c, s, t, op, i, ok, b, m) && |s.queues[m]| < c.caps[m]
    ensures Reachable(c, s') && 0 < |s'.log| && s'.heap.Keys == s.heap.Keys + {b}
    ensures s' == s.(pcs := s.pcs[t := Sending(op, i + 1, ok, AtSlot)], free := s.free.Add(PoolOf(c, s.pcs[t]), -1),
                     heap := s'.heap, place := s'.place, log := s'.log,
                     queues := s.queues[m := s.queues[m] + [EntryOf(op, Some(b), |s.log| - 1, i)]])
  {
    var s1 := UpToTest(c, s, t, op, i, ok, b, m);
    hide Reachable, EntryOf, PoolOf, Counters.Add;
    s' := Queue(c, s1, t, op, i, ok, b, m);
    assert s'.pcs == s.pcs[t := Sending(op, i + 1, ok, AtSlot)];
  }

  /** The copy for slot i meets a full queue. */
  lemma Drop(c: Config, s: State, t: Tid, op: SendOp, i: nat, ok: bool, b: Block, m: Mid) returns (s': State)
    requires Reachable(c, s) && AtReceiver(c, s, t, op, i, ok, b, m) && |s.queues[m]| >= c.caps[m]
    ensures Reachable(c, s')
    ensures s' == s.(pcs := s.pcs[t := Sending(op, i + 1, false, AtSlot)], free := s.free.Add(PoolOf(c, s.pcs[t]), -1),
                     heap := s'.heap, place := s'.place, log := s'.log, dropped := s.dropped + {b})
  {
    var s1 := UpToTest(c, s, t, op, i, ok, b, m);
    hide Reachable, PoolOf;
    s' := Lose(c, s1, t, op, i, ok, b, m);
    assert s'.pcs == s.pcs[t := Sending(op, i + 1, false, AtSlot)];
  }

  lemma SkipOne(c: Config, s: State, t: Tid, op: SendOp, i: nat, ok: bool) returns (s': State)
    requires Reachable(c, s) && t in s.pcs && s.pcs[t] == Sending(op, i, ok, AtSlot) && op.lab in s.slots
    requires i < |s.slots[op.lab]| && s.slots[op.lab][i].None?
    ensures Reachable(c, s') && s' == s.(pcs := s.pcs[t := Sending(op, i + 1, ok, AtSlot)], log := s'.log)
  {
    hide Reachable;
    s' := Go(c, s, t, Snd(Skip));
  }

  /** Only null slots are left. */
  lemma {:induction false} SkipRest(c: Config, s: State, t: Tid, op: SendOp, i: nat, ok: bool) returns (s': State)
    requires Reachable(c, s) && t in s.pcs && s.pcs[t] == Sending(op, i, ok, AtSlot) && op.lab in s.slots
    requires i <= |s.slots[op.lab]| && forall j :: i <= j < |s.slots[op.lab]| ==> s.slots[op.lab][j].None?
    ensures Reachable(c, s')
    ensures s' == s.(pcs := s.pcs[t := AfterCall(op)], log := s'.log)
    decreases |s.slots[op.lab]| - i
  {
    hide Reachable;
    if i == |s.slots[op.lab]| {
      s' := Go(c, s, t, Snd(Finish));
    } else {
      var s1 := SkipOne(c, s, t, op, i, ok);
      s' := SkipRest(c, s1, t, op, i + 1, ok);
      assert s'.pcs == s.pcs[t := AfterCall(op)];
    }
  }

  // Receiving and releasing -------------------------------------------------------------------------

  lemma Approach(c: Config, s: State, u: Tid, m: Mid) returns (s': State)
    requires Reachable(c, s) && u in s.pcs && s.pcs[u] == Idle && QueueFree(s.pcs, m) && m in c.caps
    ensures Reachable(c, s') && s' == s.(pcs := s.pcs[u := Recv(m, Try, RTest(false))])
  {
    hide Reachable;
    var s1 := Go(c, s, u, Rcv(StartRecv(m, Try)));
    assert s1 == s.(pcs := s.pcs[u := Recv(m, Try, RWant)]);
    s' := Go(c, s1, u, Rcv(LockR));
    assert s'.pcs == s.pcs[u := Recv(m, Try, RTest(false))];
  }

  /** tryPop on a queue with one message that carries data. */
  lemma Receive(c: Config, s: State, u: Tid, m: Mid, e: Entry, b: Block) returns (s': State)
    requires Reachable(c, s) && u in s.pcs && s.pcs[u] == Idle && QueueFree(s.pcs, m)
    requires m in c.caps && m in s.queues && m in s.popped && s.queues[m] == [e] && e.msg.data == Some(b)
    ensures Reachable(c, s') && m in s'.queues && s'.queues[m] == []
    ensures s' == s.(queues := s.queues[m := []], popped := s'.popped, held := s.held[b := Held(e, false)],
                     place := s'.place)
  {
    hide Reachable;
    var s1 := Approach(c, s, u, m);
    hide QueueFree;
    var s2 := Go(c, s1, u, Rcv(Look));
    assert s2 == s.(pcs := s.pcs[u := Recv(m, Try, RSaw(false, true))]);
    s' := TakeAndLeave(c, s2, u, m, e, b);
    assert s'.pcs == s.pcs;
  }

  lemma TakeAndLeave(c: Config, s: State, u: Tid, m: Mid, e: Entry, b: Block) returns (s': State)
    requires Reachable(c, s) && u in s.pcs && s.pcs[u] == Recv(m, Try, RSaw(false, true))
    requires m in s.queues && m in s.popped && s.queues[m] == [e] && e.msg.data == Some(b)
    ensures Reachable(c, s')
    ensures s' == s.(pcs := s.pcs[u := Idle], queues := s.queues[m := []], popped := s'.popped,
                     held := s.held[b := Held(e, false)], place := s'.place)
  {
    hide Reachable;
    var s1 := Go(c, s, u, Rcv(Pop));
    assert s.queues[m][1..] == [];
    assert s1.queues == s.queues[m := []];
    assert s1.pcs == s.pcs[u := Recv(m, Try, RLeave)];
    s' := Go(c, s1, u, Rcv(LeaveR));
    assert s'.pcs == s.pcs[u := Idle];
  }

  lemma Free(c: Config, s: State, u: Tid, b: Block) returns (s': State)
    requires Reachable(c, s) && u in s.pcs && s.pcs[u] == Idle && b in s.held
    ensures Reachable(c, s')
    ensures s' == s.(free := s.free.Add(c.sizes.ReleasePool(s.held[b].e.msg.size), 1), held := s.held - {b},
                     heap := s.heap - {b}, place := s'.place)
  {
    hide Reachable;
    var p := c.sizes.ReleasePool(s.held[b].e.msg.size);
    var s1 := Go(c, s, u, Fre(Release(b)));
    assert s1.pcs == s.pcs[u := Freeing(p, b)];
    var s2 := Go(c, s1, u, Fre(Dealloc));
    assert s2.pcs == s.pcs[u := Freed(p)];
    s' := Go(c, s2, u, Fre(Increment));
    assert s'.pcs == s.pcs;
  }
}

/** Blocks lost to full queues, counted. */
module Leaks {
  import opened Messages
  import opened Threads
  import opened System
  import opened Broadcast
  import opened Ownership
  import opened Payload

  /** Copies refused among some outcomes. */
  function RefusedIn(outs: seq<Outcome>): nat {
    if |outs| == 0 then 0 else RefusedIn(outs[..|outs| - 1]) + One(outs[|outs| - 1].Refused?)
  }

  /** The broadcast takes its blocks from pool p. */
  predicate TakesFrom(c: Config, op: SendOp, p: Pool) {
    op.data.Some? && c.sizes.SendPool(|op.data.value|) == p
  }

  /** Refused copies of data whose blocks came from pool p, over the whole log. */
  function RefusedCopies(c: Config, log: seq<SendRec>, p: Pool): nat {
    if |log| == 0 then 0
    else
      var n := |log| - 1;
      RefusedCopies(c, log[..n], p) + (if TakesFrom(c, log[n].op, p) then RefusedIn(log[n].outs) else 0)
  }

  ghost function DroppedFrom(dropped: set<Block>, heap: map<Block, Cell>, p: Pool): set<Block> {
    set b | b in dropped && b in heap && heap[b].pool == p
  }

  ghost predicate Counted(c: Config, dropped: set<Block>, heap: map<Block, Cell>, log: seq<SendRec>, p: Pool) {
    |DroppedFrom(dropped, heap, p)| == RefusedCopies(c, log, p)
  }

  ghost predicate LeakInv(c: Config, s: State) {
    Counted(c, s.dropped, s.heap, s.log, Small) && Counted(c, s.dropped, s.heap, s.log, Large)
  }

  lemma InitLeaks(c: Config, s: State)
    requires Init(c, s)
    ensures LeakInv(c, s)
  {
    assert DroppedFrom(s.dropped, s.heap, Small) == {} && DroppedFrom(s.dropped, s.heap, Large) == {};
  }

  // The log -----------------------------------------------------------------------------------------

  lemma RefusedNew(c: Config, log: seq<SendRec>, r: SendRec, p: Pool)
    requires r.outs == []
    ensures RefusedCopies(c, log + [r], p) == RefusedCopies(c, log, p)
  {
    assert (log + [r])[..|log|] == log;
  }

  lemma RefusedRet(c: Config, log: seq<SendRec>, ret: bool, p: Pool)
    ensures RefusedCopies(c, WithRet(log, ret), p) == RefusedCopies(c, log, p)
  {
    if log == [] {
    } else {
      assert WithRet(log, ret)[..|log| - 1] == log[..|log| - 1];
    }
  }

  lemma RefusedOut(c: Config, log: seq<SendRec>, o: Outcome, p: Pool)
    requires log != []
    ensures RefusedCopies(c, WithOut(log, o), p) ==
            RefusedCopies(c, log, p) + One(o.Refused? && TakesFrom(c, log[|log| - 1].op, p))
  {
    var n := |log| - 1;
    assert WithOut(log, o)[..n] == log[..n];
    assert (log[n].outs + [o])[..|log[n].outs|] == log[n].outs;
  }

  // Steps -------------------------------------------------------------------------------------------

  /** A block nobody has dropped appears, changes or disappears. */
  lemma DroppedFrame(dropped: set<Block>, heap: map<Block, Cell>, b: Block, cell: Cell, p: Pool)
    requires b !in dropped
    ensures DroppedFrom(dropped, heap[b := cell], p) == DroppedFrom(dropped, heap, p)
    ensures DroppedFrom(dropped, heap - {b}, p) == DroppedFrom(dropped, heap, p)
  {
  }

  lemma DroppedMore(dropped: set<Block>, heap: map<Block, Cell>, b: Block, p: Pool)
    requires b !in dropped && b in heap
    ensures |DroppedFrom(dropped + {b}, heap, p)| == |DroppedFrom(dropped, heap, p)| + One(heap[b].pool == p)
  {
    assert DroppedFrom(dropped + {b}, heap, p) ==
           DroppedFrom(dropped, heap, p) + (if heap[b].pool == p then {b} else {});
  }

  lemma CarriedNotDropped(s: State, t: Tid)
    requires t in s.pcs && OwnInv(s)
    ensures Carried(s.pcs[t]).Some? ==> Carried(s.pcs[t]).value !in s.dropped
  {
    if Carried(s.pcs[t]).Some? {
      CarriedPlace(s.pcs, s.place, t);
    }
  }

  /** A refused copy of data comes with its block, one of data's pool. */
  lemma RefusedBlock(c: Config, s: State, pc: PC)
    requires CanSend(c, s, pc, Refuse) && PcOk(c, pc) && Current(s.slots, s.log, pc) && ThreadCell(c, pc, s.heap)
    ensures 0 < |s.log| && s.log[|s.log| - 1].op == pc.op
    ensures pc.st.d.Some? <==> pc.op.data.Some?
    ensures pc.st.d.Some? ==>
              pc.st.d.value in s.heap && s.heap[pc.st.d.value].pool == c.sizes.SendPool(|pc.op.data.value|)
  {
  }

  lemma RefuseCounts(c: Config, s: State, pc: PC, p: Pool)
    requires CanSend(c, s, pc, Refuse) && Counted(c, s.dropped, s.heap, s.log, p)
    requires PcOk(c, pc) && Current(s.slots, s.log, pc) && ThreadCell(c, pc, s.heap)
    requires pc.st.d.Some? ==> pc.st.d.value !in s.dropped
    ensures Counted(c, if pc.st.d.Some? then s.dropped + {pc.st.d.value} else s.dropped, s.heap,
                    SendLog(c, s, pc, Refuse), p)
  {
    RefusedBlock(c, s, pc);
    hide PcOk, Current, ThreadCell;
    RefusedOut(c, s.log, Refused, p);
    if pc.st.d.Some? {
      DroppedMore(s.dropped, s.heap, pc.st.d.value, p);
    }
    hide DroppedFrom, RefusedCopies, WithOut;
  }

  /** The counted copies change only when one is refused. */
  predicate AddsOutcome(a: SendAct) {
    a.Skip? || a.Exhausted? || a.PmrFail? || a.Cleanup? || a.Push?
  }

  lemma OutcomeCounts(c: Config, s: State, pc: PC, a: SendAct, p: Pool)
    requires CanSend(c, s, pc, a) && AddsOutcome(a) && s.log != []
    ensures RefusedCopies(c, SendLog(c, s, pc, a), p) == RefusedCopies(c, s.log, p)
  {
    RefusedOut(c, s.log, if a.Skip? then Skipped else if a.Push? then Accepted(pc.st.d) else NoBlock, p);
    hide RefusedCopies, TakesFrom;
  }

  lemma LogCounts(c: Config, s: State, pc: PC, a: SendAct, p: Pool)
    requires CanSend(c, s, pc, a) && !a.Refuse?
    ensures RefusedCopies(c, SendLog(c, s, pc, a), p) == RefusedCopies(c, s.log, p)
  {
    if a.Lock? {
      RefusedNew(c, s.log, SendRec(pc.op, s.slots[pc.op.lab], [], None), p);
    } else if a.Finish? {
      RefusedRet(c, s.log, pc.ok, p);
    } else if AddsOutcome(a) && s.log != [] {
      OutcomeCounts(c, s, pc, a, p);
    }
    hide RefusedCopies;
  }

  lemma HeapCounts(c: Config, s: State, pc: PC, a: SendAct, p: Pool)
    requires CanSend(c, s, pc, a) && a != Cleanup
    requires (a.PmrOk? ==> a.b !in s.dropped) && (a.Put? ==> pc.st.b !in s.dropped)
    ensures DroppedFrom(s.dropped, SendHeap(c, s, pc, a), p) == DroppedFrom(s.dropped, s.heap, p)
  {
    if a.PmrOk? {
      DroppedFrame(s.dropped, s.heap, a.b, Cell(PoolOf(c, pc), a.junk), p);
    } else if a.Put? {
      DroppedFrame(s.dropped, s.heap, pc.st.b, Copied(pc.op.data.value, s.heap[pc.st.b]), p);
    }
    hide DroppedFrom, Copied;
  }

  function DroppedBy(dropped: set<Block>, pc: PC, a: SendAct): set<Block> {
    if a.Refuse? && pc.Sending? && pc.st.Tested? && pc.st.d.Some? then dropped + {pc.st.d.value} else dropped
  }

  lemma OthersCount(c: Config, s: State, pc: PC, a: SendAct, p: Pool)
    requires CanSend(c, s, pc, a) && a != Cleanup && !a.Refuse? && Counted(c, s.dropped, s.heap, s.log, p)
    requires (a.PmrOk? ==> a.b !in s.dropped) && (a.Put? ==> pc.st.b !in s.dropped)
    ensures Counted(c, s.dropped, SendHeap(c, s, pc, a), SendLog(c, s, pc, a), p)
  {
    HeapCounts(c, s, pc, a, p);
    LogCounts(c, s, pc, a, p);
    hide CanSend, DroppedFrom, RefusedCopies, SendLog, SendHeap;
  }

  lemma RefuseHeap(c: Config, s: State, pc: PC)
    requires CanSend(c, s, pc, Refuse)
    ensures SendHeap(c, s, pc, Refuse) == s.heap
  {
  }

  lemma SendKeepsCounted(c: Config, s: State, t: Tid, a: SendAct, p: Pool)
    requires t in s.pcs && CanSend(c, s, s.pcs[t], a) && a != Cleanup && OwnInv(s)
    requires PcOk(c, s.pcs[t]) && ThreadCell(c, s.pcs[t], s.heap)
    requires s.pcs[t].Sending? ==> Current(s.slots, s.log, s.pcs[t])
    requires Counted(c, s.dropped, s.heap, s.log, p)
    ensures Counted(c, DroppedBy(s.dropped, s.pcs[t], a), SendHeap(c, s, s.pcs[t], a), SendLog(c, s, s.pcs[t], a), p)
  {
    hide OwnInv, Counted, SendHeap, SendLog, PcOk, ThreadCell, Current, CanSend;
    if a.Refuse? {
      RefusedNotDropped(c, s, t);
      RefuseHeap(c, s, s.pcs[t]);
      RefuseCounts(c, s, s.pcs[t], p);
    } else {
      if a.PmrOk? {
        NewBlock(c, s, t, a.b, a.junk);
      } else if a.Put? {
        PutBlock(c, s, t, a.m);
      }
      OthersCount(c, s, s.pcs[t], a, p);
    }
  }

  // The block a sender works on has not been dropped.

  lemma NewBlock(c: Config, s: State, t: Tid, b: Block, junk: seq<Byte>)
    requires t in s.pcs && CanSend(c, s, s.pcs[t], PmrOk(b, junk)) && OwnInv(s)
    ensures b !in s.dropped
  {
  }

  lemma PutBlock(c: Config, s: State, t: Tid, m: Mid)
    requires t in s.pcs && CanSend(c, s, s.pcs[t], Put(m)) && OwnInv(s)
    ensures s.pcs[t].Sending? && s.pcs[t].st.Fill? && s.pcs[t].st.b !in s.dropped
  {
    CarriedNotDropped(s, t);
  }

  lemma RefusedNotDropped(c: Config, s: State, t: Tid)
    requires t in s.pcs && CanSend(c, s, s.pcs[t], Refuse) && OwnInv(s)
    ensures s.pcs[t].Sending? && s.pcs[t].st.Tested?
    ensures s.pcs[t].st.d.Some? ==> s.pcs[t].st.d.value !in s.dropped
  {
    hide OwnInv;
    CarriedNotDropped(s, t);
  }

  lemma SendKeepsLeaks(c: Config, s: State, t: Tid, a: SendAct)
    requires t in s.pcs && CanSend(c, s, s.pcs[t], a) && a != Cleanup && OwnInv(s) && LeakInv(c, s)
    requires PcOk(c, s.pcs[t]) && ThreadCell(c, s.pcs[t], s.heap)
    requires s.pcs[t].Sending? ==> Current(s.slots, s.log, s.pcs[t])
    ensures LeakInv(c, DoSend(c, s, t, s.pcs[t], a))
  {
    hide OwnInv, Counted, PcOk, ThreadCell, Current, SendPc, SendFree, SendHeap, SendQueues, SendPlace, SendLog;
    SendKeepsCounted(c, s, t, a, Small);
    SendKeepsCounted(c, s, t, a, Large);
  }

  lemma WriteCounts(dropped: set<Block>, heap: map<Block, Cell>, b: Block, bytes: seq<Byte>, p: Pool)
    requires b in heap
    ensures DroppedFrom(dropped, heap[b := heap[b].(bytes := bytes)], p) == DroppedFrom(dropped, heap, p)
  {
  }

  lemma FreeKeepsCounted(c: Config, s: State, t: Tid, a: FreeAct, p: Pool)
    requires t in s.pcs && CanFree(s, s.pcs[t], a) && OwnInv(s) && Counted(c, s.dropped, s.heap, s.log, p)
    ensures var s' := DoFree(c, s, t, s.pcs[t], a); Counted(c, s'.dropped, s'.heap, s'.log, p)
  {
    CarriedNotDropped(s, t);
    hide OwnInv;
    if a.Dealloc? {
      DroppedFrame(s.dropped, s.heap, s.pcs[t].b, Cell(p, []), p);
    } else if a.Write? {
      WriteCounts(s.dropped, s.heap, a.b, a.bytes, p);
    }
    hide DroppedFrom, RefusedCopies;
  }

  lemma FreeKeepsLeaks(c: Config, s: State, t: Tid, a: FreeAct)
    requires t in s.pcs && CanFree(s, s.pcs[t], a) && OwnInv(s) && LeakInv(c, s)
    ensures LeakInv(c, DoFree(c, s, t, s.pcs[t], a))
  {
    hide OwnInv, Counted, DoFree, CanFree;
    FreeKeepsCounted(c, s, t, a, Small);
    FreeKeepsCounted(c, s, t, a, Large);
  }

  lemma RecvKeepsLeaks(c: Config, s: State, t: Tid, a: RecvAct)
    requires t in s.pcs && CanRecv(c, s, t, s.pcs[t], a) && LeakInv(c, s)
    ensures LeakInv(c, DoRecv(c, s, t, s.pcs[t], a))
  {
    hide Counted;
  }

  lemma RegKeepsLeaks(c: Config, s: State, t: Tid, a: RegAct)
    requires t in s.pcs && CanReg(c, s, s.pcs[t], a) && LeakInv(c, s)
    ensures LeakInv(c, DoRegister(c, s, t, s.pcs[t], a))
  {
    hide Counted;
  }

  lemma TimerKeepsLeaks(c: Config, s: State, t: Tid, a: TimerAct)
    requires t in s.pcs && CanTimer(c, s, t, s.pcs[t], a) && LeakInv(c, s)
    ensures LeakInv(c, DoTimers(c, s, t, s.pcs[t], a))
  {
    hide Counted;
  }

  // What the log says -------------------------------------------------------------------------------

  /** Some broadcast of data had a copy refused by a full queue. */
  ghost predicate SomeRefused(log: seq<SendRec>) {
    exists n, i {:trigger log[n].outs[i]} ::
      0 <= n < |log| && 0 <= i < |log[n].outs| && log[n].op.data.Some? && log[n].outs[i].Refused?
  }

  lemma {:induction false} RefusedInIff(outs: seq<Outcome>)
    ensures RefusedIn(outs) > 0 <==> exists i :: 0 <= i < |outs| && outs[i].Refused?
  {
    if |outs| == 0 {
    } else {
      var n := |outs| - 1;
      RefusedInIff(outs[..n]);
      assert outs[n].Refused? ==> exists i :: 0 <= i < |outs| && outs[i].Refused?;
      if i :| 0 <= i < n && outs[..n][i].Refused? {
        assert outs[i].Refused?;
      }
      if i :| 0 <= i < |outs| && outs[i].Refused? && i != n {
        assert outs[..n][i].Refused?;
      }
    }
  }

  lemma {:induction false} SomeRefusedIff(c: Config, log: seq<SendRec>)
    ensures SomeRefused(log) <==> RefusedCopies(c, log, Small) + RefusedCopies(c, log, Large) > 0
  {
    if |log| == 0 {
    } else {
      var n := |log| - 1;
      SomeRefusedIff(c, log[..n]);
      RefusedInIff(log[n].outs);
      SomeRefusedNext(log);
    }
  }

  lemma SomeRefusedNext(log: seq<SendRec>)
    requires |log| > 0
    ensures var r := log[|log| - 1];
            SomeRefused(log) <==>
            SomeRefused(log[..|log| - 1]) || (r.op.data.Some? && exists i :: 0 <= i < |r.outs| && r.outs[i].Refused?)
  {
    var n := |log| - 1;
    var r := log[n];
    if SomeRefused(log[..n]) {
      var k: nat, i: nat :| k < n && i < |log[..n][k].outs| && log[..n][k].op.data.Some? && log[..n][k].outs[i].Refused?;
      assert log[k].outs[i].Refused?;
    }
    if i: nat :| r.op.data.Some? && i < |r.outs| && r.outs[i].Refused? {
      assert log[n].outs[i].Refused?;
    }
    if SomeRefused(log) {
      var k: nat, i: nat :| k < |log| && i < |log[k].outs| && log[k].op.data.Some? && log[k].outs[i].Refused?;
      if k < n {
        assert log[..n][k].outs[i].Refused?;
      }
    }
  }
}

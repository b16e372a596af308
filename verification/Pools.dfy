/** The non-atomic counters of the two block pools. */
module Pools {
  import opened Messages
  import opened Threads
  import opened System
  import opened Locks
  import opened Broadcast
  import opened Ownership
  import opened Payload

  /** Threads between deallocate and m_size++. */
  ghost function MidFree(p: Pool): PC -> bool {
    (pc: PC) => pc.Freed? && pc.pool == p
  }

  /** Threads between allocate and m_size--. */
  ghost function MidAlloc(c: Config, p: Pool): PC -> bool {
    (pc: PC) => pc.Sending? && pc.st.Got? && PoolOf(c, pc) == p
  }

  /** The blocks of one pool that are in use. */
  ghost function Outstanding(heap: map<Block, Cell>, p: Pool): set<Block> {
    set b | b in heap && heap[b].pool == p
  }

  /** The counter is exact up to the operations in flight. */
  ghost predicate Balanced(c: Config, pcs: map<Tid, PC>, free: Counters, heap: map<Block, Cell>, p: Pool) {
    free.Get(p) + |Outstanding(heap, p)| + |Where(pcs, MidFree(p))| - |Where(pcs, MidAlloc(c, p))| == c.sizes.Cap(p)
  }

  predicate Reserves(pc: PC) {
    pc.Sending? && (pc.st.Checked? || pc.st.Got?)
  }

  /** Between the check and the decrement the counter stays positive. */
  ghost predicate Reserved(c: Config, pcs: map<Tid, PC>, free: Counters) {
    && free.small >= 0 && free.large >= 0
    && forall t {:trigger pcs[t]} :: t in pcs && Reserves(pcs[t]) ==> free.Get(PoolOf(c, pcs[t])) >= 1
  }

  ghost predicate PoolInv(c: Config, s: State) {
    && Balanced(c, s.pcs, s.free, s.heap, Small)
    && Balanced(c, s.pcs, s.free, s.heap, Large)
    && Reserved(c, s.pcs, s.free)
  }

  lemma InitPools(c: Config, s: State)
    requires Init(c, s)
    ensures PoolInv(c, s)
  {
    forall p: Pool
      ensures Balanced(c, s.pcs, s.free, s.heap, p)
    {
      assert Outstanding(s.heap, p) == {} && Where(s.pcs, MidFree(p)) == {} && Where(s.pcs, MidAlloc(c, p)) == {};
    }
  }

  lemma CountMove(pcs: map<Tid, PC>, t: Tid, next: PC, f: PC -> bool)
    requires t in pcs
    ensures |Where(pcs[t := next], f)| == |Where(pcs, f)| - One(f(pcs[t])) + One(f(next))
  {
    WhereUpdate(pcs, t, next, f);
    assert t in Where(pcs, f) <==> f(pcs[t]);
  }

  lemma OutstandingAdd(heap: map<Block, Cell>, b: Block, cell: Cell, p: Pool)
    requires b !in heap
    ensures |Outstanding(heap[b := cell], p)| == |Outstanding(heap, p)| + One(cell.pool == p)
  {
    var out := Outstanding(heap, p);
    assert Outstanding(heap[b := cell], p) == if cell.pool == p then out + {b} else out;
  }

  lemma OutstandingRemove(heap: map<Block, Cell>, b: Block, p: Pool)
    requires b in heap
    ensures |Outstanding(heap - {b}, p)| == |Outstanding(heap, p)| - One(heap[b].pool == p)
  {
    var out := Outstanding(heap, p);
    assert Outstanding(heap - {b}, p) == out - {b};
    assert b in out <==> heap[b].pool == p;
  }

  lemma OutstandingSame(heap: map<Block, Cell>, b: Block, cell: Cell, p: Pool)
    requires b in heap && cell.pool == heap[b].pool
    ensures Outstanding(heap[b := cell], p) == Outstanding(heap, p)
  {
  }

  /** One step's effect on the balance of pool p. */
  lemma BalanceMove(c: Config, pcs: map<Tid, PC>, free: Counters, heap: map<Block, Cell>, p: Pool, t: Tid, next: PC,
                    free': Counters, heap': map<Block, Cell>)
    requires t in pcs && Balanced(c, pcs, free, heap, p)
    requires free'.Get(p) + |Outstanding(heap', p)| + One(MidFree(p)(next)) - One(MidAlloc(c, p)(next)) ==
             free.Get(p) + |Outstanding(heap, p)| + One(MidFree(p)(pcs[t])) - One(MidAlloc(c, p)(pcs[t]))
    ensures Balanced(c, pcs[t := next], free', heap', p)
  {
    CountMove(pcs, t, next, MidFree(p));
    CountMove(pcs, t, next, MidAlloc(c, p));
  }

  /** What a broadcast's step does to the sum in Balanced. */
  lemma SendEvens(c: Config, s: State, pc: PC, a: SendAct, p: Pool)
    requires CanSend(c, s, pc, a) && a != Cleanup && !a.PmrOk? && !a.Put?
    ensures var next := SendPc(c, s, pc, a);
            && SendHeap(c, s, pc, a) == s.heap
            && !MidFree(p)(next) && !MidFree(p)(pc)
            && SendFree(c, s, pc, a).Get(p) - One(MidAlloc(c, p)(next)) == s.free.Get(p) - One(MidAlloc(c, p)(pc))
  {
  }

  lemma SendKeepsBalance(c: Config, s: State, t: Tid, a: SendAct, p: Pool)
    requires t in s.pcs && CanSend(c, s, s.pcs[t], a) && a != Cleanup
    requires Balanced(c, s.pcs, s.free, s.heap, p)
    ensures Balanced(c, s.pcs[t := SendPc(c, s, s.pcs[t], a)],
                     SendFree(c, s, s.pcs[t], a), SendHeap(c, s, s.pcs[t], a), p)
  {
    hide Balanced;
    var pc := s.pcs[t];
    if a.PmrOk? {
      OutstandingAdd(s.heap, a.b, Cell(PoolOf(c, pc), a.junk), p);
    } else if a.Put? {
      OutstandingSame(s.heap, pc.st.b, Copied(pc.op.data.value, s.heap[pc.st.b]), p);
    } else {
      hide SendPc, SendFree, SendHeap, CanSend;
      SendEvens(c, s, pc, a, p);
    }
    BalanceMove(c, s.pcs, s.free, s.heap, p, t, SendPc(c, s, pc, a), SendFree(c, s, pc, a), SendHeap(c, s, pc, a));
  }

  lemma SendReserves(c: Config, s: State, pc: PC, a: SendAct)
    requires CanSend(c, s, pc, a) && a != Cleanup && s.free.small >= 0 && s.free.large >= 0
    requires Reserves(pc) ==> s.free.Get(PoolOf(c, pc)) >= 1
    ensures var next, free := SendPc(c, s, pc, a), SendFree(c, s, pc, a);
            && free.small >= 0 && free.large >= 0
            && (Reserves(next) ==> free.Get(PoolOf(c, next)) >= 1)
            && (free == s.free || HoldsMbox(pc))
  {
  }

  lemma SendKeepsReserve(c: Config, s: State, t: Tid, a: SendAct)
    requires t in s.pcs && CanSend(c, s, s.pcs[t], a) && a != Cleanup
    requires Exclusion(s.pcs, c.handler) && Reserved(c, s.pcs, s.free)
    ensures Reserved(c, s.pcs[t := SendPc(c, s, s.pcs[t], a)], SendFree(c, s, s.pcs[t], a))
  {
    hide CanSend, SendPc, SendFree;
    SendReserves(c, s, s.pcs[t], a);
  }

  lemma SendKeepsPools(c: Config, s: State, t: Tid, a: SendAct)
    requires t in s.pcs && CanSend(c, s, s.pcs[t], a) && SendInv(c, s) && PayloadInv(c, s) && PoolInv(c, s)
    ensures PoolInv(c, DoSend(c, s, t, s.pcs[t], a))
  {
    hide Balanced, Reserved, PayloadInv;
    PutNeverFails(c, s, t);
    SendKeepsBalance(c, s, t, a, Small);
    SendKeepsBalance(c, s, t, a, Large);
    SendKeepsReserve(c, s, t, a);
  }

  lemma FreeKeepsBalance(c: Config, s: State, t: Tid, a: FreeAct, p: Pool)
    requires t in s.pcs && CanFree(s, s.pcs[t], a) && Balanced(c, s.pcs, s.free, s.heap, p)
    requires c.sizes.RoutesOk() && ThreadCell(c, s.pcs[t], s.heap)
    ensures var s' := DoFree(c, s, t, s.pcs[t], a); Balanced(c, s'.pcs, s'.free, s'.heap, p)
  {
    hide Balanced;
    var pc := s.pcs[t];
    var s' := DoFree(c, s, t, pc, a);
    if a.Dealloc? {
      OutstandingRemove(s.heap, pc.b, p);
    } else if a.Write? {
      OutstandingSame(s.heap, a.b, Cell(s.heap[a.b].pool, a.bytes), p);
    }
    BalanceMove(c, s.pcs, s.free, s.heap, p, t, FreePc(c, s, pc, a), s'.free, s'.heap);
  }

  lemma FreeKeepsPools(c: Config, s: State, t: Tid, a: FreeAct)
    requires t in s.pcs && CanFree(s, s.pcs[t], a) && c.sizes.RoutesOk() && PayloadInv(c, s) && PoolInv(c, s)
    ensures PoolInv(c, DoFree(c, s, t, s.pcs[t], a))
  {
    assert ThreadCell(c, s.pcs[t], s.heap);
    hide Balanced, PayloadInv;
    FreeKeepsBalance(c, s, t, a, Small);
    FreeKeepsBalance(c, s, t, a, Large);
  }

  predicate Away(pc: PC, next: PC) {
    next == pc || (!pc.Sending? && !pc.Freed? && !next.Sending? && !next.Freed?)
  }

  lemma RecvAway(c: Config, s: State, t: Tid, pc: PC, a: RecvAct)
    requires CanRecv(c, s, t, pc, a)
    ensures DoRecv(c, s, t, pc, a).free == s.free && DoRecv(c, s, t, pc, a).heap == s.heap
    ensures Away(pc, RecvPc(c, s, t, pc, a))
  {
  }

  lemma RegAway(c: Config, s: State, t: Tid, pc: PC, a: RegAct)
    requires CanReg(c, s, pc, a)
    ensures DoRegister(c, s, t, pc, a).free == s.free && DoRegister(c, s, t, pc, a).heap == s.heap
    ensures Away(pc, RegPc(c, s, pc, a))
  {
  }

  lemma TimerAway(c: Config, s: State, t: Tid, pc: PC, a: TimerAct)
    requires CanTimer(c, s, t, pc, a)
    ensures DoTimers(c, s, t, pc, a).free == s.free && DoTimers(c, s, t, pc, a).heap == s.heap
    ensures Away(pc, TimerPc(c, s, t, pc, a))
  {
  }

  /** Receiving, registering and timers do not touch the pools. */
  lemma OthersAway(c: Config, s: State, t: Tid, a: Act)
    requires Can(c, s, t, a) && (a.Rcv? || a.Rgs? || a.Tmr?)
    ensures Do(c, s, t, a).free == s.free && Do(c, s, t, a).heap == s.heap
    ensures t in s.pcs && Away(s.pcs[t], NextPc(c, s, t, a))
  {
    hide CanSend, CanRecv, CanFree, CanReg, CanTimer, DoSend, DoRecv, DoFree, DoRegister, DoTimers, Away;
    match a
    case Rcv(x) => RecvAway(c, s, t, s.pcs[t], x);
    case Rgs(x) => RegAway(c, s, t, s.pcs[t], x);
    case Tmr(x) => TimerAway(c, s, t, s.pcs[t], x);
  }

  lemma AwayBalance(c: Config, s: State, p: Pool, t: Tid, next: PC)
    requires t in s.pcs && Balanced(c, s.pcs, s.free, s.heap, p)
    requires Away(s.pcs[t], next)
    ensures Balanced(c, s.pcs[t := next], s.free, s.heap, p)
  {
    BalanceMove(c, s.pcs, s.free, s.heap, p, t, next, s.free, s.heap);
  }

  lemma AwayReserve(c: Config, s: State, t: Tid, next: PC)
    requires t in s.pcs && Reserved(c, s.pcs, s.free)
    requires Away(s.pcs[t], next)
    ensures Reserved(c, s.pcs[t := next], s.free)
  {
  }

  lemma OthersKeepPools(c: Config, s: State, t: Tid, a: Act)
    requires Can(c, s, t, a) && (a.Rcv? || a.Rgs? || a.Tmr?) && PoolInv(c, s)
    ensures PoolInv(c, Do(c, s, t, a))
  {
    hide Balanced, Reserved, NextPc, Do, Can;
    OneThreadMoves(c, s, t, a);
    OthersAway(c, s, t, a);
    AwayBalance(c, s, Small, t, NextPc(c, s, t, a));
    AwayBalance(c, s, Large, t, NextPc(c, s, t, a));
    AwayReserve(c, s, t, NextPc(c, s, t, a));
  }
}

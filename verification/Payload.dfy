/** What the blocks contain, from put to release. */
module Payload {
  import opened Messages
  import opened Threads
  import opened System
  import opened Locks
  import opened Broadcast
  import opened Ownership

  /** Every block has the element size of its pool. */
  ghost predicate CellsOk(c: Config, heap: map<Block, Cell>) {
    forall b {:trigger heap[b]} :: b in heap ==> |heap[b].bytes| == c.sizes.EltSize(heap[b].pool)
  }

  predicate Contains(cell: Cell, data: seq<Byte>) {
    |data| <= |cell.bytes| && cell.bytes[..|data|] == data
  }

  /** A sender's block comes from its pool and, once put, holds the value; a freed block goes to its own pool. */
  ghost predicate ThreadCell(c: Config, pc: PC, heap: map<Block, Cell>) {
    Carried(pc).Some? ==>
      && Carried(pc).value in heap
      && var cell := heap[Carried(pc).value];
         && (pc.Sending? ==> pc.op.data.Some? && cell.pool == PoolOf(c, pc))
         && (pc.Sending? && (pc.st.WantQ? || pc.st.InQ? || pc.st.Tested?) ==> Contains(cell, pc.op.data.value))
         && (pc.Freeing? && c.sizes.RoutesOk() ==> pc.pool == cell.pool)
  }

  ghost predicate ThreadCells(c: Config, pcs: map<Tid, PC>, heap: map<Block, Cell>) {
    forall t {:trigger pcs[t]} :: t in pcs ==> ThreadCell(c, pcs[t], heap)
  }

  /** The message is the one its broadcast sent; its block is from the sender's pool and, if intact, holds the value. */
  ghost predicate EntryOk(c: Config, log: seq<SendRec>, heap: map<Block, Cell>, e: Entry, intact: bool) {
    && e.num < |log|
    && var op := log[e.num].op;
       && (e.msg.data.Some? <==> op.data.Some?)
       && (op.data.None? ==> e.msg == SignalMessage(op.lab))
       && (op.data.Some? ==>
             var b := e.msg.data.value;
             && e.msg == DataMessage(op.lab, |op.data.value|, b)
             && b in heap && heap[b].pool == c.sizes.SendPool(|op.data.value|)
             && 0 < |op.data.value| <= c.sizes.largeSize
             && (intact ==> Contains(heap[b], op.data.value)))
  }

  ghost predicate QueuedOk(c: Config, log: seq<SendRec>, heap: map<Block, Cell>, queues: map<Mid, seq<Entry>>) {
    forall m, k {:trigger queues[m][k]} ::
      m in queues && 0 <= k < |queues[m]| ==> EntryOk(c, log, heap, queues[m][k], true)
  }

  ghost predicate HeldOk(c: Config, log: seq<SendRec>, heap: map<Block, Cell>, held: map<Block, Held>) {
    forall b {:trigger held[b]} :: b in held ==> EntryOk(c, log, heap, held[b].e, !held[b].written)
  }

  ghost predicate PayloadInv(c: Config, s: State) {
    && CellsOk(c, s.heap)
    && ThreadCells(c, s.pcs, s.heap)
    && QueuedOk(c, s.log, s.heap, s.queues)
    && HeldOk(c, s.log, s.heap, s.held)
  }

  lemma InitPayload(c: Config, s: State)
    requires Init(c, s)
    ensures PayloadInv(c, s)
  {
  }

  /** put never fails, so the clean-up branch is never entered. */
  lemma PutNeverFails(c: Config, s: State, t: Tid)
    requires t in s.pcs && SendInv(c, s) && PayloadInv(c, s)
    ensures !CanSend(c, s, s.pcs[t], PutFail) && !CanSend(c, s, s.pcs[t], Cleanup)
  {
    assert PcOk(c, s.pcs[t]) && ThreadCell(c, s.pcs[t], s.heap);
    if s.pcs[t].Sending? && s.pcs[t].op.data.Some? {
      AcceptedFits(c.sizes, |s.pcs[t].op.data.value|);
    }
  }

  // Frames ----------------------------------------------------------------------------------------

  /** The memory may have changed only at block b. */
  ghost predicate HeapBut(heap: map<Block, Cell>, heap': map<Block, Cell>, b: Block) {
    forall x: Block {:trigger heap'[x]} {:trigger heap[x]} :: x in heap && x != b ==> x in heap' && heap'[x] == heap[x]
  }

  ghost predicate SameOps(log: seq<SendRec>, log': seq<SendRec>) {
    |log| <= |log'| && forall k {:trigger log'[k]} :: 0 <= k < |log| ==> log'[k].op == log[k].op
  }

  lemma HeapUpdated(heap: map<Block, Cell>, b: Block, cell: Cell)
    ensures HeapBut(heap, heap[b := cell], b) && HeapBut(heap, heap - {b}, b)
  {
  }

  lemma ThreadCellsFrame(c: Config, pcs: map<Tid, PC>, place: map<Block, Place>, t: Tid, next: PC,
                         heap: map<Block, Cell>, heap': map<Block, Cell>, b: Block)
    requires ThreadCells(c, pcs, heap) && ThreadPlaces(pcs, place) && t in pcs && HeapBut(heap, heap', b)
    requires b in place && place[b].InThread? ==> place[b].t == t
    requires ThreadCell(c, next, heap')
    ensures ThreadCells(c, pcs[t := next], heap')
  {
  }

  lemma QueuedFrame(c: Config, log: seq<SendRec>, log': seq<SendRec>, heap: map<Block, Cell>, heap': map<Block, Cell>,
                    queues: map<Mid, seq<Entry>>, popped: map<Mid, seq<Entry>>, place: map<Block, Place>, b: Block)
    requires QueuedOk(c, log, heap, queues) && SameOps(log, log') && HeapBut(heap, heap', b)
    requires QueuePlaces(queues, popped, place) && (b in place ==> !place[b].Queued?)
    ensures QueuedOk(c, log', heap', queues)
  {
    forall m: Mid, k: nat {:trigger queues[m][k]} | m in queues && k < |queues[m]|
      ensures EntryOk(c, log', heap', queues[m][k], true)
    {
      assert EntryOk(c, log, heap, queues[m][k], true);
    }
  }

  lemma HeldFrameCells(c: Config, log: seq<SendRec>, log': seq<SendRec>, heap: map<Block, Cell>, heap': map<Block, Cell>,
                       held: map<Block, Held>, place: map<Block, Place>, b: Block)
    requires HeldOk(c, log, heap, held) && SameOps(log, log') && HeapBut(heap, heap', b)
    requires HeldPlaces(held, place) && (b in place ==> !place[b].Client?)
    ensures HeldOk(c, log', heap', held)
  {
    forall x: Block {:trigger held[x]} | x in held
      ensures EntryOk(c, log', heap', held[x].e, !held[x].written)
    {
      assert EntryOk(c, log, heap, held[x].e, !held[x].written);
    }
  }

  lemma QueuedLog(c: Config, log: seq<SendRec>, log': seq<SendRec>, heap: map<Block, Cell>, queues: map<Mid, seq<Entry>>)
    requires QueuedOk(c, log, heap, queues) && SameOps(log, log')
    ensures QueuedOk(c, log', heap, queues)
  {
  }

  lemma HeldLog(c: Config, log: seq<SendRec>, log': seq<SendRec>, heap: map<Block, Cell>, held: map<Block, Held>)
    requires HeldOk(c, log, heap, held) && SameOps(log, log')
    ensures HeldOk(c, log', heap, held)
  {
  }

  lemma ThreadCellsStay(c: Config, pcs: map<Tid, PC>, t: Tid, next: PC, heap: map<Block, Cell>)
    requires ThreadCells(c, pcs, heap) && t in pcs && ThreadCell(c, next, heap)
    ensures ThreadCells(c, pcs[t := next], heap)
  {
  }

  // Steps -----------------------------------------------------------------------------------------

  lemma SendKeepsOps(c: Config, s: State, t: Tid, a: SendAct)
    requires t in s.pcs && CanSend(c, s, s.pcs[t], a)
    ensures SameOps(s.log, SendLog(c, s, s.pcs[t], a))
  {
  }

  /** The memory changes at block b, which thread t carries, or which nobody owned. */
  lemma MemoryStep(c: Config, s: State, t: Tid, next: PC, heap': map<Block, Cell>, b: Block)
    requires t in s.pcs && OwnInv(s) && PayloadInv(c, s)
    requires HeapBut(s.heap, heap', b) && CellsOk(c, heap')
    requires b in s.place ==> s.place[b] == InThread(t)
    requires ThreadCell(c, next, heap')
    ensures ThreadCells(c, s.pcs[t := next], heap')
    ensures QueuedOk(c, s.log, heap', s.queues) && HeldOk(c, s.log, heap', s.held)
  {
    hide CellsOk, ThreadCells, QueuedOk, HeldOk, ThreadPlaces, QueuePlaces, HeldPlaces, DropPlaces, HeapBut, SameOps;
    hide ThreadCell;
    SameOpsRefl(s.log);
    ThreadCellsFrame(c, s.pcs, s.place, t, next, s.heap, heap', b);
    QueuedFrame(c, s.log, s.log, s.heap, heap', s.queues, s.popped, s.place, b);
    HeldFrameCells(c, s.log, s.log, s.heap, heap', s.held, s.place, b);
  }

  lemma CellsUpdated(c: Config, heap: map<Block, Cell>, b: Block, cell: Cell)
    requires CellsOk(c, heap)
    ensures |cell.bytes| == c.sizes.EltSize(cell.pool) ==> CellsOk(c, heap[b := cell])
    ensures CellsOk(c, heap - {b})
  {
  }

  lemma PmrOkKeepsPayload(c: Config, s: State, t: Tid, b: Block, junk: seq<Byte>)
    requires t in s.pcs && CanSend(c, s, s.pcs[t], PmrOk(b, junk))
    requires PcOk(c, s.pcs[t]) && OwnInv(s) && PayloadInv(c, s)
    ensures PayloadInv(c, DoSend(c, s, t, s.pcs[t], PmrOk(b, junk)))
  {
    hide CellsOk, ThreadCells, QueuedOk, HeldOk, ThreadPlaces, QueuePlaces, HeldPlaces, DropPlaces, HeapBut;
    var cell := Cell(PoolOf(c, s.pcs[t]), junk);
    HeapUpdated(s.heap, b, cell);
    CellsUpdated(c, s.heap, b, cell);
    MemoryStep(c, s, t, SendPc(c, s, s.pcs[t], PmrOk(b, junk)), s.heap[b := cell], b);
  }

  lemma PutCell(c: Config, s: State, t: Tid, m: Mid)
    requires t in s.pcs && CanSend(c, s, s.pcs[t], Put(m))
    requires CellsOk(c, s.heap) && ThreadCell(c, s.pcs[t], s.heap)
    ensures var pc, b := s.pcs[t], s.pcs[t].st.b;
            var cell := Copied(pc.op.data.value, s.heap[b]);
            && |cell.bytes| == c.sizes.EltSize(cell.pool)
            && ThreadCell(c, SendPc(c, s, pc, Put(m)), s.heap[b := cell])
  {
  }

  lemma PutKeepsPayload(c: Config, s: State, t: Tid, m: Mid)
    requires t in s.pcs && CanSend(c, s, s.pcs[t], Put(m)) && OwnInv(s) && PayloadInv(c, s)
    ensures PayloadInv(c, DoSend(c, s, t, s.pcs[t], Put(m)))
  {
    var pc := s.pcs[t];
    var b := pc.st.b;
    assert ThreadCell(c, pc, s.heap);
    hide CellsOk, ThreadCells, QueuedOk, HeldOk, ThreadPlaces, QueuePlaces, HeldPlaces, DropPlaces, HeapBut;
    hide ThreadCell;
    PutCell(c, s, t, m);
    CarriedPlace(s.pcs, s.place, t);
    var cell := Copied(pc.op.data.value, s.heap[b]);
    HeapUpdated(s.heap, b, cell);
    CellsUpdated(c, s.heap, b, cell);
    MemoryStep(c, s, t, SendPc(c, s, pc, Put(m)), s.heap[b := cell], b);
  }

  /** The hand-over: the entry queued by Push is the message its broadcast sent. */
  lemma PushedEntry(c: Config, s: State, t: Tid)
    requires t in s.pcs && CanSend(c, s, s.pcs[t], Push)
    requires PcOk(c, s.pcs[t]) && Current(s.slots, s.log, s.pcs[t]) && ThreadCell(c, s.pcs[t], s.heap)
    ensures EntryOk(c, s.log, s.heap, EntryOf(s.pcs[t].op, s.pcs[t].st.d, |s.log| - 1, s.pcs[t].i), true)
  {
  }

  lemma PushKeepsPayload(c: Config, s: State, t: Tid)
    requires t in s.pcs && CanSend(c, s, s.pcs[t], Push)
    requires PcOk(c, s.pcs[t]) && Current(s.slots, s.log, s.pcs[t]) && PayloadInv(c, s)
    ensures PayloadInv(c, DoSend(c, s, t, s.pcs[t], Push))
  {
    var pc := s.pcs[t];
    var log' := SendLog(c, s, pc, Push);
    assert ThreadCell(c, pc, s.heap);
    PushedEntry(c, s, t);
    hide CellsOk, ThreadCells, QueuedOk, HeldOk, SameOps, EntryOk, Current, PcOk;
    SendKeepsOps(c, s, t, Push);
    ThreadCellsStay(c, s.pcs, t, SendPc(c, s, pc, Push), s.heap);
    QueuedAppend(c, s.log, s.heap, s.queues, pc.st.m, EntryOf(pc.op, pc.st.d, |s.log| - 1, pc.i));
    QueuedLog(c, s.log, log', s.heap, SendQueues(c, s, pc, Push));
    HeldLog(c, s.log, log', s.heap, s.held);
  }

  lemma QueuedAppend(c: Config, log: seq<SendRec>, heap: map<Block, Cell>, queues: map<Mid, seq<Entry>>, m: Mid, e: Entry)
    requires QueuedOk(c, log, heap, queues) && m in queues && EntryOk(c, log, heap, e, true)
    ensures QueuedOk(c, log, heap, queues[m := queues[m] + [e]])
  {
  }

  lemma QueuedDrop(c: Config, log: seq<SendRec>, heap: map<Block, Cell>, queues: map<Mid, seq<Entry>>, m: Mid)
    requires QueuedOk(c, log, heap, queues) && m in queues && queues[m] != []
    ensures QueuedOk(c, log, heap, queues[m := queues[m][1..]]) && EntryOk(c, log, heap, queues[m][0], true)
  {
    var q: map<Mid, seq<Entry>> := queues[m := queues[m][1..]];
    forall x: Mid, k: nat {:trigger q[x][k]} | x in q && k < |q[x]|
      ensures EntryOk(c, log, heap, q[x][k], true)
    {
      assert q[x][k] == queues[x][if x == m then k + 1 else k];
    }
  }

  lemma SendKeepsCell(c: Config, s: State, t: Tid, a: SendAct)
    requires t in s.pcs && CanSend(c, s, s.pcs[t], a) && !a.PmrOk? && !a.Put?
    requires ThreadCell(c, s.pcs[t], s.heap)
    ensures ThreadCell(c, SendPc(c, s, s.pcs[t], a), s.heap)
  {
  }

  lemma LocalFacts(c: Config, s: State, t: Tid)
    requires t in s.pcs && SendInv(c, s) && PayloadInv(c, s)
    ensures PcOk(c, s.pcs[t]) && ThreadCell(c, s.pcs[t], s.heap)
    ensures s.pcs[t].Sending? ==> Current(s.slots, s.log, s.pcs[t])
  {
  }

  lemma SendKeepsPayload(c: Config, s: State, t: Tid, a: SendAct)
    requires t in s.pcs && CanSend(c, s, s.pcs[t], a) && SendInv(c, s) && OwnInv(s) && PayloadInv(c, s)
    ensures PayloadInv(c, DoSend(c, s, t, s.pcs[t], a))
  {
    hide CellsOk, ThreadCells, QueuedOk, HeldOk, SameOps, OwnInv, SendInv, PcOk, Current, ThreadCell;
    LocalFacts(c, s, t);
    if a.PmrOk? {
      PmrOkKeepsPayload(c, s, t, a.b, a.junk);
    } else if a.Put? {
      PutKeepsPayload(c, s, t, a.m);
    } else if a.Push? {
      PushKeepsPayload(c, s, t);
    } else {
      SendKeepsOps(c, s, t, a);
      SendKeepsCell(c, s, t, a);
      ThreadCellsStay(c, s.pcs, t, SendPc(c, s, s.pcs[t], a), s.heap);
      QueuedLog(c, s.log, SendLog(c, s, s.pcs[t], a), s.heap, s.queues);
      HeldLog(c, s.log, SendLog(c, s, s.pcs[t], a), s.heap, s.held);
    }
  }

  lemma HeldOkAdd(c: Config, log: seq<SendRec>, heap: map<Block, Cell>, held: map<Block, Held>, b: Block, h: Held)
    requires HeldOk(c, log, heap, held) && EntryOk(c, log, heap, h.e, !h.written)
    ensures HeldOk(c, log, heap, held[b := h])
  {
  }

  lemma RecvKeepsPayload(c: Config, s: State, t: Tid, a: RecvAct)
    requires t in s.pcs && CanRecv(c, s, t, s.pcs[t], a) && PayloadInv(c, s)
    ensures PayloadInv(c, DoRecv(c, s, t, s.pcs[t], a))
  {
    hide CellsOk, ThreadCells, QueuedOk, HeldOk;
    ThreadCellsStay(c, s.pcs, t, RecvPc(c, s, t, s.pcs[t], a), s.heap);
    if a.Pop? && s.queues[s.pcs[t].m] != [] {
      var e := s.queues[s.pcs[t].m][0];
      QueuedDrop(c, s.log, s.heap, s.queues, s.pcs[t].m);
      if e.msg.data.Some? {
        HeldOkAdd(c, s.log, s.heap, s.held, e.msg.data.value, Held(e, false));
      }
    }
  }

  /** ReleaseMessage's pool is the sender's. */
  lemma ReleaseRoutes(c: Config, s: State, t: Tid, b: Block)
    requires t in s.pcs && CanFree(s, s.pcs[t], Release(b)) && OwnInv(s) && PayloadInv(c, s)
    ensures ThreadCell(c, FreePc(c, s, s.pcs[t], Release(b)), s.heap)
  {
    assert EntryOk(c, s.log, s.heap, s.held[b].e, !s.held[b].written) && s.held[b].e.msg.data == Some(b);
    RoutingIff(c.sizes);
  }

  lemma HeldOkRemove(c: Config, log: seq<SendRec>, heap: map<Block, Cell>, held: map<Block, Held>, b: Block)
    requires HeldOk(c, log, heap, held)
    ensures HeldOk(c, log, heap, held - {b})
  {
  }

  /** A client's write stays within its own block. */
  lemma WriteKeepsPayload(c: Config, s: State, t: Tid, b: Block, bytes: seq<Byte>)
    requires t in s.pcs && CanFree(s, s.pcs[t], Write(b, bytes)) && OwnInv(s) && PayloadInv(c, s)
    ensures PayloadInv(c, DoFree(c, s, t, s.pcs[t], Write(b, bytes)))
  {
    var cell := Cell(s.heap[b].pool, bytes);
    var heap' := s.heap[b := cell];
    assert b in s.place && s.place[b] == Client;
    assert |bytes| == c.sizes.EltSize(s.heap[b].pool);
    WriteHeld(c, s, b, bytes);
    hide CellsOk, ThreadCells, QueuedOk, HeldOk, ThreadPlaces, QueuePlaces, HeldPlaces, DropPlaces, SameOps, HeapBut;
    HeapUpdated(s.heap, b, cell);
    CellsUpdated(c, s.heap, b, cell);
    ThreadCellsFrame(c, s.pcs, s.place, t, s.pcs[t], s.heap, heap', b);
    SameOpsRefl(s.log);
    QueuedFrame(c, s.log, s.log, s.heap, heap', s.queues, s.popped, s.place, b);
  }

  lemma SameOpsRefl(log: seq<SendRec>)
    ensures SameOps(log, log)
  {
  }

  lemma WriteHeld(c: Config, s: State, b: Block, bytes: seq<Byte>)
    requires OwnInv(s) && PayloadInv(c, s) && b in s.held && b in s.heap && |bytes| == |s.heap[b].bytes|
    ensures HeldOk(c, s.log, s.heap[b := Cell(s.heap[b].pool, bytes)], s.held[b := Held(s.held[b].e, true)])
  {
    var held': map<Block, Held> := s.held[b := Held(s.held[b].e, true)];
    forall x: Block {:trigger held'[x]} | x in held'
      ensures EntryOk(c, s.log, s.heap[b := Cell(s.heap[b].pool, bytes)], held'[x].e, !held'[x].written)
    {
      assert EntryOk(c, s.log, s.heap, s.held[x].e, !s.held[x].written) && s.held[x].e.msg.data == Some(x);
    }
  }

  lemma DeallocKeepsPayload(c: Config, s: State, t: Tid)
    requires t in s.pcs && CanFree(s, s.pcs[t], Dealloc) && OwnInv(s) && PayloadInv(c, s)
    ensures PayloadInv(c, DoFree(c, s, t, s.pcs[t], Dealloc))
  {
    hide CellsOk, ThreadCells, QueuedOk, HeldOk, ThreadPlaces, QueuePlaces, HeldPlaces, DropPlaces, HeapBut;
    var b := s.pcs[t].b;
    CarriedPlace(s.pcs, s.place, t);
    HeapUpdated(s.heap, b, Cell(Small, []));
    CellsUpdated(c, s.heap, b, Cell(Small, []));
    MemoryStep(c, s, t, Freed(s.pcs[t].pool), s.heap - {b}, b);
  }

  lemma FreeKeepsPayload(c: Config, s: State, t: Tid, a: FreeAct)
    requires t in s.pcs && CanFree(s, s.pcs[t], a) && OwnInv(s) && PayloadInv(c, s)
    ensures PayloadInv(c, DoFree(c, s, t, s.pcs[t], a))
  {
    hide CellsOk, ThreadCells, QueuedOk, HeldOk, ThreadPlaces, QueuePlaces, HeldPlaces, DropPlaces;
    if a.Release? {
      ReleaseRoutes(c, s, t, a.b);
      ThreadCellsStay(c, s.pcs, t, FreePc(c, s, s.pcs[t], a), s.heap);
      HeldOkRemove(c, s.log, s.heap, s.held, a.b);
    } else if a.Dealloc? {
      DeallocKeepsPayload(c, s, t);
    } else if a.Write? {
      WriteKeepsPayload(c, s, t, a.b, a.bytes);
    } else {
      ThreadCellsStay(c, s.pcs, t, Idle, s.heap);
    }
  }

  lemma OthersKeepPayload(c: Config, s: State, t: Tid, a: Act)
    requires Can(c, s, t, a) && (a.Rgs? || a.Tmr?) && PayloadInv(c, s)
    ensures PayloadInv(c, Do(c, s, t, a))
  {
    assert ThreadCell(c, s.pcs[t], s.heap);
    hide CellsOk, ThreadCells, QueuedOk, HeldOk;
    match a
    case Rgs(x) => ThreadCellsStay(c, s.pcs, t, RegPc(c, s, s.pcs[t], x), s.heap);
    case Tmr(x) => ThreadCellsStay(c, s.pcs, t, TimerPc(c, s, t, s.pcs[t], x), s.heap);
  }
}

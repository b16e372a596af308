/**
 * The whole library as a step system. One step is one lock operation, one access to a pool counter, one call of the
 * memory resource, one test of a queue's size or one change of the queue, or one test of a loop.
 * For each family of steps there is a guard, the next program counter of the stepping thread,
 * and the next value of each shared component.
 */
module System {
  import opened Messages
  import opened Receiver
  import opened Threads

  datatype Config = Config(sizes: Sizes, maxReceivers: nat, caps: map<Mid, nat>, handler: Tid)

  /** A message in a queue, with the number of its broadcast and the slot it was sent for. */
  datatype Entry = Entry(msg: Message, num: nat, slot: nat)

  /** What one broadcast did for one slot. */
  datatype Outcome = Skipped | Accepted(data: Option<Block>) | NoBlock | Refused {

    /** A copy of data that was refused keeps the block taken for it. */
    predicate Took() {
      Accepted? || Refused?
    }
  }

  /** No copy of data was lost: SendMessage's result. SendSignal's is always true. */
  predicate Clean(isData: bool, outs: seq<Outcome>) {
    isData ==> forall j :: 0 <= j < |outs| ==> outs[j].Skipped? || outs[j].Accepted?
  }

  /** The record of one broadcast; ret is set when the call returns. */
  datatype SendRec = SendRec(op: SendOp, slots: seq<Option<Mid>>, outs: seq<Outcome>, ret: Option<bool>)

  /** Who is responsible for a block in use; n counts all messages ever queued in mailbox m. */
  datatype Place = InThread(t: Tid) | Queued(m: Mid, n: nat) | Client | Dropped

  datatype Held = Held(e: Entry, written: bool)

  datatype Counters = Counters(small: int, large: int) {
    function Get(p: Pool): int {
      if p == Small then small else large
    }

    function Add(p: Pool, k: int): Counters {
      if p == Small then this.(small := small + k) else this.(large := large + k)
    }
  }

  datatype TimerInfo = TimerInfo(lab: Label, oneShot: bool)

  /**
   * started lists every Timer ever constructed, table is m_timers, objs the Timer objects alive;
   * armed and pending are the operating system's view. signals lists the timers SendSignal was called for;
   * stale is set once timerEvent has been called for a destroyed Timer.
   */
  datatype Timers = Timers(
    started: seq<TimerInfo>,
    table: map<Label, TimerId>,
    objs: set<TimerId>,
    armed: set<TimerId>,
    pending: set<TimerId>,
    signals: seq<TimerId>,
    stale: bool)

  /**
   * asleep is the set of condition-variable waiters. free holds the two m_size counters, heap the blocks
   * in use. popped, place, held, dropped and log are history.
   */
  datatype State = State(
    pcs: map<Tid, PC>,
    asleep: set<Tid>,
    slots: map<Label, seq<Option<Mid>>>,
    queues: map<Mid, seq<Entry>>,
    popped: map<Mid, seq<Entry>>,
    free: Counters,
    heap: map<Block, Cell>,
    place: map<Block, Place>,
    held: map<Block, Held>,
    dropped: set<Block>,
    log: seq<SendRec>,
    tm: Timers)

  ghost predicate Init(c: Config, s: State) {
    && (forall t :: t in s.pcs ==> s.pcs[t] == Idle)
    && s.asleep == {}
    && (forall l: Label :: l in s.slots && s.slots[l] == Empties(c.maxReceivers))
    && s.queues.Keys == s.popped.Keys == c.caps.Keys
    && (forall m :: m in s.queues ==> s.queues[m] == [])
    && (forall m :: m in s.popped ==> s.popped[m] == [])
    && s.free == Counters(c.sizes.smallCap, c.sizes.largeCap)
    && s.heap == map[] && s.place == map[] && s.held == map[] && s.dropped == {} && s.log == []
    && s.tm == Timers([], map[], {}, {}, {}, [], false)
  }

  // SendMessage and SendSignal ----------------------------------------------------------------

  datatype SendAct =
    | Start(lab: Label, data: Option<seq<Byte>>)
    | Lock
    | LockReject                      // sizeof(T) > largeSize()
    | Skip                            // a null slot
    | Signal(m: Mid)
    | Check                           // m_size > 0
    | Exhausted                       // m_size == 0
    | PmrOk(b: Block, junk: seq<Byte>)
    | PmrFail
    | Decrement
    | Put(m: Mid)
    | PutFail
    | Cleanup
    | LockQueue
    | TestRoom                        // m_queue.size() < m_capacity
    | Push
    | Refuse
    | Notify(w: Tid)
    | NotifyNone
    | UnlockQueue
    | Finish
    | FinishReject

  /** Thread w waits on the condition variable of m's queue. */
  predicate Sleeps(pcs: map<Tid, PC>, asleep: set<Tid>, w: Tid, m: Mid) {
    w in asleep && w in pcs && pcs[w].Recv? && pcs[w].m == m
  }

  predicate AtData(s: State, pc: PC) {
    && pc.Sending? && pc.st.AtSlot? && pc.op.data.Some?
    && pc.op.lab in s.slots && pc.i < |s.slots[pc.op.lab]| && s.slots[pc.op.lab][pc.i].Some?
  }

  function PoolOf(c: Config, pc: PC): Pool
    requires pc.Sending?
  {
    c.sizes.SendPool(if pc.op.data.Some? then |pc.op.data.value| else 0)
  }

  predicate TooLarge(c: Config, op: SendOp) {
    op.data.Some? && |op.data.value| > c.sizes.largeSize
  }

  ghost predicate CanSend(c: Config, s: State, pc: PC, a: SendAct) {
    match a
    case Start(l, d) => pc.Idle? && (d.Some? ==> 0 < |d.value|)
    case Lock => pc.SWant? && MboxFree(s.pcs) && pc.op.lab in s.slots && !TooLarge(c, pc.op)
    case LockReject => pc.SWant? && MboxFree(s.pcs) && TooLarge(c, pc.op)
    case Skip =>
      && pc.Sending? && pc.st.AtSlot? && pc.op.lab in s.slots
      && pc.i < |s.slots[pc.op.lab]| && s.slots[pc.op.lab][pc.i].None?
    case Signal(m) =>
      && pc.Sending? && pc.st.AtSlot? && pc.op.data.None? && pc.op.lab in s.slots
      && pc.i < |s.slots[pc.op.lab]| && s.slots[pc.op.lab][pc.i] == Some(m)
    case Check => AtData(s, pc) && s.free.Get(PoolOf(c, pc)) > 0
    case Exhausted => AtData(s, pc) && s.free.Get(PoolOf(c, pc)) <= 0
    case PmrOk(b, junk) =>
      pc.Sending? && pc.st.Checked? && b !in s.heap && |junk| == c.sizes.EltSize(PoolOf(c, pc))
    case PmrFail => pc.Sending? && pc.st.Checked?
    case Decrement => pc.Sending? && pc.st.Got?
    case Put(m) =>
      && pc.Sending? && pc.st.Fill? && pc.op.data.Some? && pc.st.b in s.heap
      && |pc.op.data.value| <= |s.heap[pc.st.b].bytes| && pc.op.lab in s.slots
      && pc.i < |s.slots[pc.op.lab]| && s.slots[pc.op.lab][pc.i] == Some(m)
    case PutFail =>
      && pc.Sending? && pc.st.Fill? && pc.op.data.Some? && pc.st.b in s.heap
      && |pc.op.data.value| > |s.heap[pc.st.b].bytes|
    case Cleanup => pc.Sending? && pc.st.Bad?
    case LockQueue => pc.Sending? && pc.st.WantQ? && QueueFree(s.pcs, pc.st.m)
    case TestRoom => pc.Sending? && pc.st.InQ? && pc.st.m in s.queues && pc.st.m in c.caps
    case Push =>
      && pc.Sending? && pc.st.Tested? && pc.st.room && 0 < |s.log|
      && pc.st.m in s.queues && pc.st.m in c.caps && pc.st.m in s.popped
    case Refuse => pc.Sending? && pc.st.Tested? && !pc.st.room && pc.st.m in s.queues && pc.st.m in c.caps
    case Notify(w) => pc.Sending? && pc.st.Pushed? && Sleeps(s.pcs, s.asleep, w, pc.st.m)
    case NotifyNone =>
      pc.Sending? && pc.st.Pushed? && forall w :: w in s.asleep ==> !Sleeps(s.pcs, s.asleep, w, pc.st.m)
    case UnlockQueue => pc.Sending? && pc.st.LeaveQ?
    case Finish =>
      pc.Sending? && pc.st.AtSlot? && pc.op.lab in s.slots && pc.i >= |s.slots[pc.op.lab]|
    case FinishReject => pc.SRejected?
  }

  function AfterCall(op: SendOp): PC {
    if op.origin.User? then Idle else Hand(op.origin.id, HAfter)
  }

  ghost function SendPc(c: Config, s: State, pc: PC, a: SendAct): PC
    requires CanSend(c, s, pc, a)
  {
    match a
    case Start(l, d) => SWant(SendOp(l, d, User))
    case Lock => Sending(pc.op, 0, true, AtSlot)
    case LockReject => SRejected(pc.op)
    case Skip => Sending(pc.op, pc.i + 1, pc.ok, AtSlot)
    case Signal(m) => Sending(pc.op, pc.i, pc.ok, WantQ(m, None))
    case Check => Sending(pc.op, pc.i, pc.ok, Checked)
    case Exhausted => Sending(pc.op, pc.i + 1, false, AtSlot)
    case PmrOk(b, _) => Sending(pc.op, pc.i, pc.ok, Got(b))
    case PmrFail => Sending(pc.op, pc.i + 1, false, AtSlot)
    case Decrement => Sending(pc.op, pc.i, pc.ok, Fill(pc.st.b))
    case Put(m) => Sending(pc.op, pc.i, pc.ok, WantQ(m, Some(pc.st.b)))
    case PutFail => Sending(pc.op, pc.i, pc.ok, Bad(pc.st.b))
    case Cleanup => Sending(pc.op, pc.i + 1, false, AtSlot)
    case LockQueue => Sending(pc.op, pc.i, pc.ok, InQ(pc.st.m, pc.st.d))
    case TestRoom =>
      Sending(pc.op, pc.i, pc.ok, Tested(pc.st.m, pc.st.d, |s.queues[pc.st.m]| < c.caps[pc.st.m]))
    case Push => Sending(pc.op, pc.i, pc.ok, Pushed(pc.st.m))
    case Refuse => Sending(pc.op, pc.i, pc.ok && pc.op.data.None?, LeaveQ(pc.st.m))
    case Notify(w) => Sending(pc.op, pc.i, pc.ok, LeaveQ(pc.st.m))
    case NotifyNone => Sending(pc.op, pc.i, pc.ok, LeaveQ(pc.st.m))
    case UnlockQueue => Sending(pc.op, pc.i + 1, pc.ok, AtSlot)
    case Finish => AfterCall(pc.op)
    case FinishReject => AfterCall(pc.op)
  }

  function EntryOf(op: SendOp, d: Option<Block>, num: nat, slot: nat): Entry {
    if op.data.Some? && d.Some?
    then Entry(DataMessage(op.lab, |op.data.value|, d.value), num, slot)
    else Entry(SignalMessage(op.lab), num, slot)
  }

  function WithOut(log: seq<SendRec>, o: Outcome): seq<SendRec> {
    if log == [] then log
    else log[|log| - 1 := log[|log| - 1].(outs := log[|log| - 1].outs + [o])]
  }

  function WithRet(log: seq<SendRec>, r: bool): seq<SendRec> {
    if log == [] then log else log[|log| - 1 := log[|log| - 1].(ret := Some(r))]
  }

  function Placed(place: map<Block, Place>, d: Option<Block>, p: Place): map<Block, Place> {
    if d.Some? then place[d.value := p] else place
  }

  ghost function SendLog(c: Config, s: State, pc: PC, a: SendAct): seq<SendRec>
    requires CanSend(c, s, pc, a)
  {
    match a
    case Lock => s.log + [SendRec(pc.op, s.slots[pc.op.lab], [], None)]
    case Skip => WithOut(s.log, Skipped)
    case Exhausted => WithOut(s.log, NoBlock)
    case PmrFail => WithOut(s.log, NoBlock)
    case Cleanup => WithOut(s.log, NoBlock)
    case Push => WithOut(s.log, Accepted(pc.st.d))
    case Refuse => WithOut(s.log, Refused)
    case Finish => WithRet(s.log, pc.ok)
    case _ => s.log
  }

  ghost function SendQueues(c: Config, s: State, pc: PC, a: SendAct): map<Mid, seq<Entry>>
    requires CanSend(c, s, pc, a)
  {
    match a
    case Push => s.queues[pc.st.m := s.queues[pc.st.m] + [EntryOf(pc.op, pc.st.d, |s.log| - 1, pc.i)]]
    case _ => s.queues
  }

  ghost function SendFree(c: Config, s: State, pc: PC, a: SendAct): Counters
    requires CanSend(c, s, pc, a)
  {
    match a
    case Decrement => s.free.Add(PoolOf(c, pc), -1)
    case Cleanup => s.free.Add(Small, 1)
    case _ => s.free
  }

  ghost function SendHeap(c: Config, s: State, pc: PC, a: SendAct): map<Block, Cell>
    requires CanSend(c, s, pc, a)
  {
    match a
    case PmrOk(b, junk) => s.heap[b := Cell(PoolOf(c, pc), junk)]
    case Put(_) => s.heap[pc.st.b := Copied(pc.op.data.value, s.heap[pc.st.b])]
    case Cleanup => s.heap - {pc.st.b}
    case _ => s.heap
  }

  ghost function SendPlace(c: Config, s: State, t: Tid, pc: PC, a: SendAct): map<Block, Place>
    requires CanSend(c, s, pc, a)
  {
    match a
    case PmrOk(b, _) => s.place[b := InThread(t)]
    case Cleanup => s.place - {pc.st.b}
    case Push => Placed(s.place, pc.st.d, Queued(pc.st.m, |s.popped[pc.st.m]| + |s.queues[pc.st.m]|))
    case Refuse => Placed(s.place, pc.st.d, Dropped)
    case _ => s.place
  }

  ghost function DoSend(c: Config, s: State, t: Tid, pc: PC, a: SendAct): State
    requires CanSend(c, s, pc, a)
  {
    s.(pcs := s.pcs[t := SendPc(c, s, pc, a)],
       asleep := if a.Notify? then s.asleep - {a.w} else s.asleep,
       queues := SendQueues(c, s, pc, a),
       free := SendFree(c, s, pc, a),
       heap := SendHeap(c, s, pc, a),
       place := SendPlace(c, s, t, pc, a),
       dropped := if a.Refuse? && pc.st.d.Some? then s.dropped + {pc.st.d.value} else s.dropped,
       log := SendLog(c, s, pc, a))
  }

  // pop, popWait and tryPop -------------------------------------------------------------------

  datatype RecvAct =
    | StartRecv(m: Mid, mode: Mode)
    | LockR
    | Look                            // !m_queue.empty()
    | Pop
    | Sleep
    | GiveUp
    | Spurious
    | Timeout
    | Relock
    | LeaveR

  ghost predicate CanRecv(c: Config, s: State, t: Tid, pc: PC, a: RecvAct) {
    match a
    case StartRecv(m, _) => pc.Idle? && m in c.caps
    case LockR => pc.Recv? && pc.rs.RWant? && QueueFree(s.pcs, pc.m)
    case Look => pc.Recv? && pc.rs.RTest? && pc.m in s.queues
    case Pop => pc.Recv? && pc.rs.RSaw? && pc.rs.found && pc.m in s.queues && pc.m in s.popped
    case Sleep =>
      && pc.Recv? && pc.rs.RSaw? && !pc.rs.found
      && (pc.mode.Blocking? || (pc.mode.Timed? && !pc.rs.expired))
    case GiveUp =>
      && pc.Recv? && pc.rs.RSaw? && !pc.rs.found
      && (pc.mode.Try? || (pc.mode.Timed? && pc.rs.expired))
    case Spurious => pc.Recv? && pc.rs.RWait? && t in s.asleep
    case Timeout => pc.Recv? && pc.rs.RWait? && pc.mode.Timed?
    case Relock => pc.Recv? && pc.rs.RWait? && t !in s.asleep && QueueFree(s.pcs, pc.m)
    case LeaveR => pc.Recv? && pc.rs.RLeave?
  }

  ghost function RecvPc(c: Config, s: State, t: Tid, pc: PC, a: RecvAct): PC
    requires CanRecv(c, s, t, pc, a)
  {
    match a
    case StartRecv(m, mode) => Recv(m, mode, RWant)
    case LockR => Recv(pc.m, pc.mode, RTest(false))
    case Look => Recv(pc.m, pc.mode, RSaw(pc.rs.expired, s.queues[pc.m] != []))
    case Pop => Recv(pc.m, pc.mode, RLeave)
    case Sleep => Recv(pc.m, pc.mode, RWait(false))
    case GiveUp => Recv(pc.m, pc.mode, RLeave)
    case Spurious => pc
    case Timeout => Recv(pc.m, pc.mode, RWait(true))
    case Relock => Recv(pc.m, pc.mode, RTest(pc.rs.expired))
    case LeaveR => Idle
  }

  /**
   * front of an empty queue is undefined in the source; here Pop then takes nothing. Monitor.ActsOnWhatItSaw rules it
   * out.
   */
  ghost function DoRecv(c: Config, s: State, t: Tid, pc: PC, a: RecvAct): State
    requires CanRecv(c, s, t, pc, a)
  {
    var s1 := s.(
      pcs := s.pcs[t := RecvPc(c, s, t, pc, a)],
      asleep := if a.Sleep? then s.asleep + {t} else if a.Spurious? || a.Timeout? then s.asleep - {t} else s.asleep);
    if a.Pop? && s.queues[pc.m] != [] then
      var e := s.queues[pc.m][0];
      s1.(queues := s.queues[pc.m := s.queues[pc.m][1..]],
          popped := s.popped[pc.m := s.popped[pc.m] + [e]],
          held := if e.msg.data.Some? then s.held[e.msg.data.value := Held(e, false)] else s.held,
          place := Placed(s.place, e.msg.data, Client))
    else s1
  }

  // ReleaseMessage, and writes through the pointer that as<T> returns ------------------------

  datatype FreeAct = Release(b: Block) | Dealloc | Increment | Write(b: Block, bytes: seq<Byte>)

  /** A received message may be passed between threads, so any idle thread can write or release it, once. */
  ghost predicate CanFree(s: State, pc: PC, a: FreeAct) {
    match a
    case Release(b) => pc.Idle? && b in s.held
    case Dealloc => pc.Freeing?
    case Increment => pc.Freed?
    case Write(b, bytes) => pc.Idle? && b in s.held && b in s.heap && |bytes| == |s.heap[b].bytes|
  }

  ghost function FreePc(c: Config, s: State, pc: PC, a: FreeAct): PC
    requires CanFree(s, pc, a)
  {
    match a
    case Release(b) => Freeing(c.sizes.ReleasePool(s.held[b].e.msg.size), b)
    case Dealloc => Freed(pc.pool)
    case Increment => Idle
    case Write(_, _) => pc
  }

  ghost function DoFree(c: Config, s: State, t: Tid, pc: PC, a: FreeAct): State
    requires CanFree(s, pc, a)
  {
    var s1 := s.(pcs := s.pcs[t := FreePc(c, s, pc, a)]);
    match a
    case Release(b) => s1.(held := s.held - {b}, place := s.place[b := InThread(t)])
    case Dealloc => s1.(heap := s.heap - {pc.b}, place := s.place - {pc.b})
    case Increment => s1.(free := s.free.Add(pc.pool, 1))
    case Write(b, bytes) =>
      s1.(heap := s.heap[b := s.heap[b].(bytes := bytes)], held := s.held[b := Held(s.held[b].e, true)])
  }

  // RegisterForLabel and UnregisterForLabel ---------------------------------------------------

  datatype RegAct = StartReg(lab: Label, m: Mid, add: bool) | LockG | DoReg | UnlockG

  ghost predicate CanReg(c: Config, s: State, pc: PC, a: RegAct) {
    match a
    case StartReg(l, m, add) => pc.Idle? && m in c.caps
    case LockG => pc.Reg? && pc.gs.WantG? && MboxFree(s.pcs)
    case DoReg => pc.Reg? && pc.gs.DoG? && pc.lab in s.slots
    case UnlockG => pc.Reg? && pc.gs.LeaveG?
  }

  ghost function RegPc(c: Config, s: State, pc: PC, a: RegAct): PC
    requires CanReg(c, s, pc, a)
  {
    match a
    case StartReg(l, m, add) => Reg(l, m, add, WantG)
    case LockG => Reg(pc.lab, pc.m, pc.add, DoG)
    case DoReg => Reg(pc.lab, pc.m, pc.add, LeaveG)
    case UnlockG => Idle
  }

  ghost function DoRegister(c: Config, s: State, t: Tid, pc: PC, a: RegAct): State
    requires CanReg(c, s, pc, a)
  {
    var s1 := s.(pcs := s.pcs[t := RegPc(c, s, pc, a)]);
    if a.DoReg? then
      var now := s.slots[pc.lab];
      s1.(slots := s.slots[pc.lab := if pc.add then AddSlot(now, pc.m) else RemoveSlot(now, pc.m)])
    else s1
  }

  // The timer manager -------------------------------------------------------------------------

  /** startTimer on the table: the label must be free. */
  function StartIn(tm: Timers, l: Label, oneShot: bool): Timers {
    if l in tm.table then tm
    else
      var id := |tm.started|;
      tm.(started := tm.started + [TimerInfo(l, oneShot)], table := tm.table[l := id],
          objs := tm.objs + {id}, armed := tm.armed + {id})
  }

  /** cancelTimer on the table; deleting a POSIX timer discards its pending expiry. */
  function CancelIn(tm: Timers, l: Label): Timers {
    if l !in tm.table then tm
    else
      var id := tm.table[l];
      tm.(table := tm.table - {l}, objs := tm.objs - {id}, armed := tm.armed - {id}, pending := tm.pending - {id})
  }

  /**
   * HLock calls timerEvent without asking whether the Timer is still alive, as the source does. The memory of a
   * destroyed Timer is not reused, so what is read from it is its old label and type: started still has them.
   */
  datatype TimerAct =
    | StartTim(top: TimerOp)
    | LockT
    | DoTimer
    | UnlockT
    | Expire(id: TimerId)
    | Dequeue(id: TimerId)
    | HLock
    | HSignal
    | HRelock
    | HSkip
    | HDoCancel
    | HRelease
    | HUnlock

  ghost predicate CanTimer(c: Config, s: State, t: Tid, pc: PC, a: TimerAct) {
    match a
    case StartTim(_) => pc.Idle?
    case LockT => pc.Tim? && pc.ts.WantT? && TimerFree(s.pcs, t)
    case DoTimer => pc.Tim? && pc.ts.DoT?
    case UnlockT => pc.Tim? && pc.ts.LeaveT?
    case Expire(id) => id in s.tm.armed && id < |s.tm.started|
    case Dequeue(id) => t == c.handler && pc.Idle? && id in s.tm.pending
    case HLock => pc.Hand? && pc.hs.HWant? && TimerFree(s.pcs, t)
    case HSignal => pc.Hand? && pc.hs.HFire? && pc.id < |s.tm.started|
    case HRelock =>
      && pc.Hand? && pc.hs.HAfter? && TimerFree(s.pcs, t)
      && pc.id < |s.tm.started| && s.tm.started[pc.id].oneShot
    case HSkip => pc.Hand? && pc.hs.HAfter? && pc.id < |s.tm.started| && !s.tm.started[pc.id].oneShot
    case HDoCancel => pc.Hand? && pc.hs.HCancel? && pc.id < |s.tm.started|
    case HRelease => pc.Hand? && pc.hs.HCancelled?
    case HUnlock => pc.Hand? && pc.hs.HLeave?
  }

  ghost function TimerPc(c: Config, s: State, t: Tid, pc: PC, a: TimerAct): PC
    requires CanTimer(c, s, t, pc, a)
  {
    match a
    case StartTim(top) => Tim(top, WantT)
    case LockT => Tim(pc.top, DoT)
    case DoTimer => Tim(pc.top, LeaveT)
    case UnlockT => Idle
    case Expire(id) => pc
    case Dequeue(id) => Hand(id, HWant)
    case HLock => Hand(pc.id, HFire)
    case HSignal => SWant(SendOp(s.tm.started[pc.id].lab, None, Fired(pc.id)))
    case HRelock => Hand(pc.id, HCancel)
    case HSkip => Hand(pc.id, HLeave)
    case HDoCancel => Hand(pc.id, HCancelled)
    case HRelease => Hand(pc.id, HLeave)
    case HUnlock => Idle
  }

  ghost function NextTimers(c: Config, s: State, t: Tid, pc: PC, a: TimerAct): Timers
    requires CanTimer(c, s, t, pc, a)
  {
    match a
    case DoTimer =>
      if pc.top.StartTimer? then StartIn(s.tm, pc.top.lab, pc.top.oneShot) else CancelIn(s.tm, pc.top.lab)
    case Expire(id) =>
      s.tm.(pending := s.tm.pending + {id},
            armed := if s.tm.started[id].oneShot then s.tm.armed - {id} else s.tm.armed)
    case Dequeue(id) => s.tm.(pending := s.tm.pending - {id})
    case HLock => s.tm.(stale := s.tm.stale || pc.id !in s.tm.objs)
    case HSignal => s.tm.(signals := s.tm.signals + [pc.id])
    case HDoCancel => CancelIn(s.tm, s.tm.started[pc.id].lab)
    case _ => s.tm
  }

  ghost function DoTimers(c: Config, s: State, t: Tid, pc: PC, a: TimerAct): State
    requires CanTimer(c, s, t, pc, a)
  {
    s.(pcs := s.pcs[t := TimerPc(c, s, t, pc, a)], tm := NextTimers(c, s, t, pc, a))
  }

  // Steps and runs ----------------------------------------------------------------------------

  datatype Act = Snd(s: SendAct) | Rcv(r: RecvAct) | Fre(f: FreeAct) | Rgs(g: RegAct) | Tmr(t: TimerAct)

  ghost predicate Can(c: Config, s: State, t: Tid, a: Act) {
    && t in s.pcs
    && match a
       case Snd(x) => CanSend(c, s, s.pcs[t], x)
       case Rcv(x) => CanRecv(c, s, t, s.pcs[t], x)
       case Fre(x) => CanFree(s, s.pcs[t], x)
       case Rgs(x) => CanReg(c, s, s.pcs[t], x)
       case Tmr(x) => CanTimer(c, s, t, s.pcs[t], x)
  }

  ghost function Do(c: Config, s: State, t: Tid, a: Act): State
    requires Can(c, s, t, a)
  {
    match a
    case Snd(x) => DoSend(c, s, t, s.pcs[t], x)
    case Rcv(x) => DoRecv(c, s, t, s.pcs[t], x)
    case Fre(x) => DoFree(c, s, t, s.pcs[t], x)
    case Rgs(x) => DoRegister(c, s, t, s.pcs[t], x)
    case Tmr(x) => DoTimers(c, s, t, s.pcs[t], x)
  }

  /** The program counter of the stepping thread; all others stay. */
  ghost function NextPc(c: Config, s: State, t: Tid, a: Act): PC
    requires Can(c, s, t, a)
  {
    match a
    case Snd(x) => SendPc(c, s, s.pcs[t], x)
    case Rcv(x) => RecvPc(c, s, t, s.pcs[t], x)
    case Fre(x) => FreePc(c, s, s.pcs[t], x)
    case Rgs(x) => RegPc(c, s, s.pcs[t], x)
    case Tmr(x) => TimerPc(c, s, t, s.pcs[t], x)
  }

  lemma SendMoves(c: Config, s: State, t: Tid, pc: PC, a: SendAct)
    requires CanSend(c, s, pc, a)
    ensures DoSend(c, s, t, pc, a).pcs == s.pcs[t := SendPc(c, s, pc, a)]
  {
    hide CanSend, SendPc, SendQueues, SendFree, SendHeap, SendPlace, SendLog;
  }

  lemma RecvMoves(c: Config, s: State, t: Tid, pc: PC, a: RecvAct)
    requires CanRecv(c, s, t, pc, a)
    ensures DoRecv(c, s, t, pc, a).pcs == s.pcs[t := RecvPc(c, s, t, pc, a)]
    ensures DoRecv(c, s, t, pc, a).tm == s.tm && DoRecv(c, s, t, pc, a).log == s.log
  {
  }

  lemma FreeMoves(c: Config, s: State, t: Tid, pc: PC, a: FreeAct)
    requires CanFree(s, pc, a)
    ensures DoFree(c, s, t, pc, a).pcs == s.pcs[t := FreePc(c, s, pc, a)]
    ensures DoFree(c, s, t, pc, a).tm == s.tm && DoFree(c, s, t, pc, a).log == s.log
    ensures DoFree(c, s, t, pc, a).asleep == s.asleep
  {
  }

  lemma RegMoves(c: Config, s: State, t: Tid, pc: PC, a: RegAct)
    requires CanReg(c, s, pc, a)
    ensures DoRegister(c, s, t, pc, a).pcs == s.pcs[t := RegPc(c, s, pc, a)]
    ensures DoRegister(c, s, t, pc, a).tm == s.tm && DoRegister(c, s, t, pc, a).log == s.log
    ensures DoRegister(c, s, t, pc, a).asleep == s.asleep
  {
  }

  lemma OneThreadMoves(c: Config, s: State, t: Tid, a: Act)
    requires Can(c, s, t, a)
    ensures t in s.pcs && Do(c, s, t, a).pcs == s.pcs[t := NextPc(c, s, t, a)]
  {
    hide CanSend, CanRecv, CanFree, CanReg, CanTimer, DoSend, DoRecv, DoFree, DoRegister;
    hide SendPc, RecvPc, FreePc, RegPc, TimerPc;
    match a
    case Snd(x) => SendMoves(c, s, t, s.pcs[t], x);
    case Rcv(x) => RecvMoves(c, s, t, s.pcs[t], x);
    case Fre(x) => FreeMoves(c, s, t, s.pcs[t], x);
    case Rgs(x) => RegMoves(c, s, t, s.pcs[t], x);
    case Tmr(_) =>
  }

  datatype Step = Step(t: Tid, a: Act)

  /** The states of an interleaving, from any starting state. */
  ghost predicate Run(c: Config, ss: seq<State>, steps: seq<Step>) {
    && |ss| == |steps| + 1
    && forall k :: 0 <= k < |steps| ==>
         Can(c, ss[k], steps[k].t, steps[k].a) && ss[k + 1] == Do(c, ss[k], steps[k].t, steps[k].a)
  }

  ghost predicate Reachable(c: Config, s: State) {
    exists ss, steps :: Run(c, ss, steps) && Init(c, ss[0]) && ss[|steps|] == s
  }
}

/** Program counters of the threads, and the mutexes each of them holds. */
module Threads {
  import opened Messages

  type Tid = nat
  type Mid = nat
  type TimerId = nat

  /** Who called SendSignal: client code, or the signal handler for the timer it dequeued. */
  datatype Origin = User | Fired(id: TimerId)

  /** A call of SendMessage, or of SendSignal when data is None. */
  datatype SendOp = SendOp(lab: Label, data: Option<seq<Byte>>, origin: Origin)

  /** Where a broadcast is within one slot. */
  datatype Stage =
    | AtSlot
    | Checked                          // BytePool::alloc has seen m_size > 0
    | Got(b: Block)                    // memory allocated, m_size not yet decremented
    | Fill(b: Block)                   // block owned, put not yet called
    | Bad(b: Block)                    // put has failed
    | WantQ(m: Mid, d: Option<Block>)  // emplace called, queue mutex not yet taken
    | InQ(m: Mid, d: Option<Block>)
    | Tested(m: Mid, d: Option<Block>, room: bool)  // the size has been compared with the capacity
    | Pushed(m: Mid)                   // emplaced, notify_one not yet called
    | LeaveQ(m: Mid)

  /** pop, popWait and tryPop. */
  datatype Mode = Blocking | Timed | Try

  /** expired: the wait has timed out. RSaw: the predicate has been evaluated; found is what it said. */
  datatype RStage = RWant | RTest(expired: bool) | RSaw(expired: bool, found: bool) | RWait(expired: bool) | RLeave

  datatype GStage = WantG | DoG | LeaveG

  datatype TimerOp = StartTimer(lab: Label, oneShot: bool) | CancelTimer(lab: Label)

  datatype TStage = WantT | DoT | LeaveT

  /** HandleSignals and timerEvent. */
  datatype HStage = HWant | HFire | HAfter | HCancel | HCancelled | HLeave

  datatype PC =
    | Idle
    | SWant(op: SendOp)
    | SRejected(op: SendOp)
    | Sending(op: SendOp, i: nat, ok: bool, st: Stage)
    | Recv(m: Mid, mode: Mode, rs: RStage)
    | Freeing(pool: Pool, b: Block)    // BytePool::free called
    | Freed(pool: Pool)                // deallocated, m_size not yet incremented
    | Reg(lab: Label, m: Mid, add: bool, gs: GStage)
    | Tim(top: TimerOp, ts: TStage)
    | Hand(id: TimerId, hs: HStage)

  // Mutexes. A mutex is free when no program counter lies inside a section that holds it.

  predicate HoldsMbox(pc: PC) {
    pc.SRejected? || pc.Sending? || (pc.Reg? && !pc.gs.WantG?)
  }

  predicate HoldsQueue(pc: PC, m: Mid) {
    || (pc.Sending? && (pc.st.InQ? || pc.st.Tested? || pc.st.Pushed? || pc.st.LeaveQ?) && pc.st.m == m)
    || (pc.Recv? && (pc.rs.RTest? || pc.rs.RSaw? || pc.rs.RLeave?) && pc.m == m)
  }

  /** timerEvent calls SendSignal with the timer mutex held. */
  predicate InFire(pc: PC) {
    (pc.SWant? || pc.SRejected? || pc.Sending?) && pc.op.origin.Fired?
  }

  /** How often the recursive timer mutex is held. */
  function TimerDepth(pc: PC): nat {
    if pc.Tim? then (if pc.ts.WantT? then 0 else 1)
    else if pc.Hand? then (if pc.hs.HWant? then 0 else if pc.hs.HCancel? || pc.hs.HCancelled? then 2 else 1)
    else if InFire(pc) then 1
    else 0
  }

  ghost predicate MboxFree(pcs: map<Tid, PC>) {
    forall u {:trigger pcs[u]} :: u in pcs ==> !HoldsMbox(pcs[u])
  }

  ghost predicate QueueFree(pcs: map<Tid, PC>, m: Mid) {
    forall u {:trigger pcs[u]} :: u in pcs ==> !HoldsQueue(pcs[u], m)
  }

  /** The timer mutex is recursive: thread t may take it again. */
  ghost predicate TimerFree(pcs: map<Tid, PC>, t: Tid) {
    forall u {:trigger pcs[u]} :: u in pcs && u != t ==> TimerDepth(pcs[u]) == 0
  }

  /** At most one thread inside each mutex, and one thread handles timer signals. */
  ghost predicate Exclusion(pcs: map<Tid, PC>, handler: Tid) {
    && (forall t, u {:trigger pcs[t], pcs[u]} ::
          t in pcs && u in pcs && HoldsMbox(pcs[t]) && HoldsMbox(pcs[u]) ==> t == u)
    && (forall t, u, m {:trigger HoldsQueue(pcs[t], m), HoldsQueue(pcs[u], m)} ::
          t in pcs && u in pcs && HoldsQueue(pcs[t], m) && HoldsQueue(pcs[u], m) ==> t == u)
    && (forall t, u {:trigger pcs[t], pcs[u]} ::
          t in pcs && u in pcs && TimerDepth(pcs[t]) > 0 && TimerDepth(pcs[u]) > 0 ==> t == u)
    && (forall t {:trigger pcs[t]} :: t in pcs && (pcs[t].Hand? || InFire(pcs[t])) ==> t == handler)
  }

  /** A move of thread t that enters a mutex only when it is free. */
  ghost predicate Polite(pcs: map<Tid, PC>, t: Tid, next: PC, handler: Tid)
    requires t in pcs
  {
    && (HoldsMbox(next) ==> HoldsMbox(pcs[t]) || MboxFree(pcs))
    && (forall m :: HoldsQueue(next, m) ==> HoldsQueue(pcs[t], m) || QueueFree(pcs, m))
    && (TimerDepth(next) > 0 ==> TimerDepth(pcs[t]) > 0 || TimerFree(pcs, t))
    && (next.Hand? || InFire(next) ==> pcs[t].Hand? || InFire(pcs[t]) || t == handler)
  }

  lemma PoliteKeepsExclusion(pcs: map<Tid, PC>, t: Tid, next: PC, handler: Tid)
    requires Exclusion(pcs, handler) && t in pcs && Polite(pcs, t, next, handler)
    ensures Exclusion(pcs[t := next], handler)
  {
  }

  /** The threads whose program counter satisfies f. */
  ghost function Where(pcs: map<Tid, PC>, f: PC -> bool): set<Tid> {
    set t | t in pcs && f(pcs[t])
  }

  lemma WhereUpdate(pcs: map<Tid, PC>, t: Tid, pc: PC, f: PC -> bool)
    ensures Where(pcs[t := pc], f) == if f(pc) then Where(pcs, f) + {t} else Where(pcs, f) - {t}
  {
  }
}

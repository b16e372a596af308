/** Locks are taken in one order, some holder can always move, and every holder lets go in bounded time. */
module Progress {
  import opened Messages
  import opened Threads
  import opened System
  import opened Locks
  import opened Broadcast
  import opened Ownership
  import opened Payload
  import opened Pools
  import opened History
  import opened Wakeup
  import opened TimerTable
  import opened Invariant

  datatype Mutex = TimerMutex | MboxMutex | QueueMutex(m: Mid)

  function Level(x: Mutex): nat {
    match x
    case TimerMutex => 0
    case MboxMutex => 1
    case QueueMutex(_) => 2
  }

  predicate Holds(pc: PC, x: Mutex) {
    match x
    case TimerMutex => TimerDepth(pc) > 0
    case MboxMutex => HoldsMbox(pc)
    case QueueMutex(m) => HoldsQueue(pc, m)
  }

  /** A thread in the wait of pop or popWait that nobody has woken. */
  predicate Sleeping(s: State, t: Tid) {
    t in s.pcs && s.pcs[t].Recv? && s.pcs[t].rs.RWait? && t in s.asleep
  }

  /** The mutex a thread is about to take. */
  function WaitsFor(pc: PC): Option<Mutex> {
    match pc
    case SWant(_) => Some(MboxMutex)
    case Sending(_, _, _, st) => if st.WantQ? then Some(QueueMutex(st.m)) else None
    case Recv(m, _, rs) => if rs.RWant? || rs.RWait? then Some(QueueMutex(m)) else None
    case Reg(_, _, _, gs) => if gs.WantG? then Some(MboxMutex) else None
    case Tim(_, ts) => if ts.WantT? then Some(TimerMutex) else None
    case Hand(_, hs) => if hs.HWant? then Some(TimerMutex) else None
    case _ => None
  }

  /** The hierarchy: timer, then mailbox, then a single queue. */
  lemma LockOrder(pc: PC, x: Mutex, y: Mutex)
    requires Holds(pc, x)
    ensures WaitsFor(pc) == Some(y) ==> Level(x) < Level(y)
    ensures Holds(pc, y) && Level(x) == Level(y) ==> x == y
  {
  }

  ghost predicate Blocks(s: State, u: Tid, t: Tid) {
    && t in s.pcs && u in s.pcs && u != t
    && WaitsFor(s.pcs[t]).Some? && Holds(s.pcs[u], WaitsFor(s.pcs[t]).value)
  }

  ghost predicate Blocked(s: State, t: Tid) {
    exists u :: Blocks(s, u, t)
  }

  /** Steps taken by the environment or by an awakening, not by the thread's own code. */
  predicate Spontaneous(a: Act) {
    a == Rcv(Spurious) || a == Rcv(Timeout) || (a.Tmr? && a.t.Expire?)
  }

  ghost predicate CanMove(c: Config, s: State, t: Tid) {
    exists a :: Can(c, s, t, a) && !Spontaneous(a)
  }

  // A thread that is not blocked can move --------------------------------------------------------

  lemma MboxToTake(s: State, t: Tid)
    requires t in s.pcs && !Blocked(s, t) && WaitsFor(s.pcs[t]) == Some(MboxMutex)
    ensures MboxFree(s.pcs)
  {
    forall u {:trigger s.pcs[u]} | u in s.pcs && u != t
      ensures !HoldsMbox(s.pcs[u])
    {
      assert !Blocks(s, u, t);
    }
  }

  lemma QueueToTake(s: State, t: Tid, m: Mid)
    requires t in s.pcs && !Blocked(s, t) && WaitsFor(s.pcs[t]) == Some(QueueMutex(m))
    ensures QueueFree(s.pcs, m)
  {
    forall u {:trigger s.pcs[u]} | u in s.pcs && u != t
      ensures !HoldsQueue(s.pcs[u], m)
    {
      assert !Blocks(s, u, t);
    }
  }

  lemma TimerToTake(s: State, t: Tid)
    requires t in s.pcs && !Blocked(s, t) && WaitsFor(s.pcs[t]) == Some(TimerMutex)
    ensures TimerFree(s.pcs, t)
  {
    forall u {:trigger s.pcs[u]} | u in s.pcs && u != t
      ensures TimerDepth(s.pcs[u]) == 0
    {
      assert !Blocks(s, u, t);
    }
  }

  lemma SenderMoves(c: Config, s: State, t: Tid)
    requires t in s.pcs && !Blocked(s, t) && SendInv(c, s) && PayloadInv(c, s)
    requires s.pcs[t].SWant? || s.pcs[t].SRejected? || s.pcs[t].Sending?
    ensures CanMove(c, s, t)
  {
    var pc := s.pcs[t];
    LocalFacts(c, s, t);
    hide SendInv, PayloadInv;
    if pc.SWant? {
      MboxToTake(s, t);
      TablesOk(c, s, pc.op.lab);
      assert Can(c, s, t, Snd(if TooLarge(c, pc.op) then LockReject else Lock));
    } else if pc.SRejected? {
      assert Can(c, s, t, Snd(FinishReject));
    } else {
      TablesOk(c, s, pc.op.lab);
      SendingMoves(c, s, t);
    }
  }

  lemma TablesOk(c: Config, s: State, l: Label)
    requires SendInv(c, s)
    ensures l in s.slots && SlotsOk(c, s.slots[l])
    ensures s.queues.Keys == c.caps.Keys && s.popped.Keys == c.caps.Keys
  {
  }

  lemma SendingMoves(c: Config, s: State, t: Tid)
    requires t in s.pcs && !Blocked(s, t) && s.pcs[t].Sending?
    requires PcOk(c, s.pcs[t]) && Current(s.slots, s.log, s.pcs[t]) && ThreadCell(c, s.pcs[t], s.heap)
    requires s.queues.Keys == c.caps.Keys && s.popped.Keys == c.caps.Keys
    ensures CanMove(c, s, t)
  {
    var pc := s.pcs[t];
    var a: SendAct;
    match pc.st {
      case AtSlot =>
        var slots := s.slots[pc.op.lab];
        a := if pc.i >= |slots| then Finish
             else if slots[pc.i].None? then Skip
             else if pc.op.data.None? then Signal(slots[pc.i].value)
             else if s.free.Get(PoolOf(c, pc)) > 0 then Check else Exhausted;
      case Checked => a := PmrFail;
      case Got(_) => a := Decrement;
      case Fill(b) =>
        a := if |pc.op.data.value| <= |s.heap[b].bytes| then Put(s.slots[pc.op.lab][pc.i].value) else PutFail;
      case Bad(_) => a := Cleanup;
      case WantQ(m, _) =>
        QueueToTake(s, t, m);
        a := LockQueue;
      case InQ(_, _) => a := TestRoom;
      case Tested(_, _, room) => a := if room then Push else Refuse;
      case Pushed(m) =>
        if w :| w in s.asleep && Sleeps(s.pcs, s.asleep, w, m) {
          a := Notify(w);
        } else {
          a := NotifyNone;
        }
      case LeaveQ(_) => a := UnlockQueue;
    }
    assert Can(c, s, t, Snd(a));
  }

  lemma ReceiverMoves(c: Config, s: State, t: Tid)
    requires t in s.pcs && !Blocked(s, t) && s.pcs[t].Recv? && !Sleeping(s, t)
    requires PcOk(c, s.pcs[t]) && s.queues.Keys == c.caps.Keys && s.popped.Keys == c.caps.Keys
    ensures CanMove(c, s, t)
  {
    var pc := s.pcs[t];
    var a: RecvAct;
    match pc.rs {
      case RWant =>
        QueueToTake(s, t, pc.m);
        a := LockR;
      case RTest(_) => a := Look;
      case RSaw(x, found) =>
        a := if found then Pop
             else if pc.mode.Blocking? || (pc.mode.Timed? && !x) then Sleep else GiveUp;
      case RWait(_) =>
        QueueToTake(s, t, pc.m);
        a := Relock;
      case RLeave => a := LeaveR;
    }
    assert Can(c, s, t, Rcv(a));
  }

  lemma TimerMoves(c: Config, s: State, t: Tid)
    requires t in s.pcs && !Blocked(s, t) && (s.pcs[t].Tim? || s.pcs[t].Hand?)
    requires Exclusion(s.pcs, c.handler) && FiringOk(s.pcs[t], s.tm)
    ensures CanMove(c, s, t)
  {
    var pc := s.pcs[t];
    var a: TimerAct;
    if WaitsFor(pc).Some? {
      TimerToTake(s, t);
    }
    match pc {
      case Tim(_, ts) => a := if ts.WantT? then LockT else if ts.DoT? then DoTimer else UnlockT;
      case Hand(id, hs) =>
        a := match hs
             case HWant => HLock
             case HFire => HSignal
             case HAfter => if s.tm.started[id].oneShot then HRelock else HSkip
             case HCancel => HDoCancel
             case HCancelled => HRelease
             case HLeave => HUnlock;
    }
    assert Can(c, s, t, Tmr(a));
  }

  lemma RegistrarMoves(c: Config, s: State, t: Tid)
    requires t in s.pcs && !Blocked(s, t) && s.pcs[t].Reg? && s.pcs[t].lab in s.slots
    ensures CanMove(c, s, t)
  {
    var gs := s.pcs[t].gs;
    if gs.WantG? {
      MboxToTake(s, t);
    }
    assert Can(c, s, t, Rgs(if gs.WantG? then LockG else if gs.DoG? then DoReg else UnlockG));
  }

  /** Every thread that is inside a call, not asleep and not waiting for a held mutex can take a step. */
  lemma UnblockedMoves(c: Config, s: State, t: Tid)
    requires Reachable(c, s) && t in s.pcs && !s.pcs[t].Idle? && !Sleeping(s, t) && !Blocked(s, t)
    ensures CanMove(c, s, t)
  {
    hide Reachable, SendInv, OwnInv, PayloadInv, PoolInv, HistoryInv, WakeInv, TableOk, OneShotOk, CanMove, Blocked;
    ReachableParts(c, s);
    LocalFacts(c, s, t);
    ExclusionHolds(c, s);
    TablesOk(c, s, if s.pcs[t].Reg? then s.pcs[t].lab else 0);
    hide PcOk, Exclusion;
    match s.pcs[t]
    case SWant(_) => SenderMoves(c, s, t);
    case SRejected(_) => SenderMoves(c, s, t);
    case Sending(_, _, _, _) => SenderMoves(c, s, t);
    case Recv(_, _, _) => ReceiverMoves(c, s, t);
    case Freeing(_, _) => FreerMoves(c, s, t);
    case Freed(_) => FreerMoves(c, s, t);
    case Reg(_, _, _, _) => RegistrarMoves(c, s, t);
    case Tim(_, _) => TimerMoves(c, s, t);
    case Hand(_, _) => TimerMoves(c, s, t);
  }

  lemma FreerMoves(c: Config, s: State, t: Tid)
    requires t in s.pcs && (s.pcs[t].Freeing? || s.pcs[t].Freed?)
    ensures CanMove(c, s, t)
  {
    assert Can(c, s, t, Fre(if s.pcs[t].Freeing? then Dealloc else Increment));
  }

  // Deadlock freedom ----------------------------------------------------------------------------

  /** u blocks t, directly or through at most n further holders. */
  ghost predicate BlocksVia(s: State, u: Tid, t: Tid, n: nat)
    decreases n
  {
    Blocks(s, u, t) || (n > 0 && exists v :: Blocks(s, v, t) && BlocksVia(s, u, v, n - 1))
  }

  lemma HoldersRun(c: Config, s: State, t: Tid, x: Mutex)
    requires Reachable(c, s) && t in s.pcs && Blocked(s, t) && WaitsFor(s.pcs[t]) == Some(x)
    ensures exists u :: BlocksVia(s, u, t, 2 - Level(x)) && CanMove(c, s, u)
    decreases 2 - Level(x)
  {
    hide Reachable, CanMove;
    var v :| Blocks(s, v, t);
    if Blocked(s, v) {
      var y := WaitsFor(s.pcs[v]).value;
      LockOrder(s.pcs[v], x, y);
      HoldersRun(c, s, v, y);
      var u :| BlocksVia(s, u, v, 2 - Level(y)) && CanMove(c, s, u);
      Further(s, u, v, 2 - Level(y), 1 - Level(x));
      assert BlocksVia(s, u, t, 2 - Level(x));
    } else {
      UnblockedMoves(c, s, v);
      assert BlocksVia(s, v, t, 2 - Level(x));
    }
  }

  lemma {:induction false} Further(s: State, u: Tid, t: Tid, n: nat, n': nat)
    requires BlocksVia(s, u, t, n) && n <= n'
    ensures BlocksVia(s, u, t, n')
    decreases n
  {
    if !Blocks(s, u, t) {
      var v :| Blocks(s, v, t) && BlocksVia(s, u, v, n - 1);
      Further(s, u, v, n - 1, n' - 1);
    }
  }

  /**
   * No deadlock: a thread inside a call either can step, or sleeps in pop or popWait, or is held up by a chain
   * of at most three lock holders whose last one can step.
   */
  lemma DeadlockFreedom(c: Config, s: State, t: Tid)
    requires Reachable(c, s) && t in s.pcs && !s.pcs[t].Idle? && !Sleeping(s, t)
    ensures CanMove(c, s, t) || exists u :: BlocksVia(s, u, t, 2) && CanMove(c, s, u)
  {
    hide Reachable, CanMove;
    if Blocked(s, t) {
      var x := WaitsFor(s.pcs[t]).value;
      HoldersRun(c, s, t, x);
      var u :| BlocksVia(s, u, t, 2 - Level(x)) && CanMove(c, s, u);
      Further(s, u, t, 2 - Level(x), 2);
    } else {
      UnblockedMoves(c, s, t);
    }
  }

  // Wake-ups ------------------------------------------------------------------------------------

  lemma CoveredHolds(c: Config, s: State, m: Mid)
    requires WakeInv(s) && m in s.queues && Sleepers(s.pcs, s.asleep, m) != {}
    ensures |s.queues[m]| <= |Testers(s.pcs, s.asleep, m)| + |Where(s.pcs, Notifier(m))|
  {
    assert Covered(s.pcs, s.asleep, |s.queues[m]|, m);
  }

  /** notify_one is called with the queue mutex held. */
  lemma NotifierHolds(s: State, m: Mid)
    requires QueueFree(s.pcs, m)
    ensures Where(s.pcs, Notifier(m)) == {}
  {
  }

  lemma SomeoneAwake(s: State, m: Mid) returns (t: Tid)
    requires Testers(s.pcs, s.asleep, m) != {} || Where(s.pcs, Notifier(m)) != {}
    ensures t in s.pcs && !s.pcs[t].Idle? && !Sleeping(s, t)
    ensures WillTest(s.pcs, s.asleep, t, m) || Notifier(m)(s.pcs[t])
  {
    if Testers(s.pcs, s.asleep, m) != {} {
      t :| t in Testers(s.pcs, s.asleep, m);
      assert WillTest(s.pcs, s.asleep, t, m);
    } else {
      t :| t in Where(s.pcs, Notifier(m));
      assert Notifier(m)(s.pcs[t]);
    }
  }

  /** t is about to look for an element in m's queue, or to wake up somebody who will. */
  ghost predicate Attends(s: State, t: Tid, m: Mid) {
    t in s.pcs && !Sleeping(s, t) && (WillTest(s.pcs, s.asleep, t, m) || Notifier(m)(s.pcs[t]))
  }

  /**
   * No lost wake-up: while any thread sleeps in pop or popWait, every element of the queue has a consumer awake that
   * has yet to test for it, or a producer about to notify, and none of these is stuck.
   */
  lemma NoLostWakeup(c: Config, s: State, m: Mid)
    requires Reachable(c, s) && m in s.queues && Sleepers(s.pcs, s.asleep, m) != {}
    ensures |s.queues[m]| <= |Testers(s.pcs, s.asleep, m)| + |Where(s.pcs, Notifier(m))|
    ensures QueueFree(s.pcs, m) ==> |s.queues[m]| <= |Testers(s.pcs, s.asleep, m)|
    ensures s.queues[m] != [] ==>
              exists t :: Attends(s, t, m) && (CanMove(c, s, t) || exists u :: BlocksVia(s, u, t, 2) && CanMove(c, s, u))
  {
    hide Reachable, WakeInv, CanMove, BlocksVia, Testers, Where, Sleepers, QueueFree;
    ReachableParts(c, s);
    CoveredHolds(c, s, m);
    if QueueFree(s.pcs, m) {
      NotifierHolds(s, m);
    }
    if s.queues[m] != [] {
      var t := SomeoneAwake(s, m);
      DeadlockFreedom(c, s, t);
      assert Attends(s, t, m);
    }
  }
}

/** Every call can be completed by its own thread, as long as no other thread stays inside a mutex. */
module Completion {
  import opened Messages
  import opened Threads
  import opened System
  import opened Broadcast
  import opened Ownership
  import opened Payload
  import opened History
  import opened Wakeup
  import opened TimerTable
  import opened Monitor
  import opened Leaks
  import opened Progress
  import opened Bounds
  import opened Invariant

  /** A run leads from s to s'. */
  ghost predicate Leads(c: Config, s: State, s': State) {
    exists ss, steps :: Run(c, ss, steps) && ss[0] == s && ss[|steps|] == s'
  }

  lemma LeadsHere(c: Config, s: State)
    ensures Leads(c, s, s)
  {
    var ss: seq<State>, steps: seq<Step> := [s], [];
    assert Run(c, ss, steps) && ss[|steps|] == s;
  }

  lemma LeadsOn(c: Config, b: State, s: State, t: Tid, a: Act)
    requires Leads(c, b, s) && Can(c, s, t, a)
    ensures Leads(c, b, Do(c, s, t, a))
  {
    hide Can, Do;
    var ss, steps :| Run(c, ss, steps) && ss[0] == b && ss[|steps|] == s;
    ExtendRun(c, ss, steps, t, a);
    var ss' := ss + [Do(c, s, t, a)];
    assert ss'[0] == b && ss'[|steps + [Step(t, a)]|] == Do(c, s, t, a);
  }

  /** No thread but t is inside a mutex. Others may be anywhere else, asleep for instance. */
  ghost predicate Calm(pcs: map<Tid, PC>, t: Tid) {
    forall u {:trigger pcs[u]} :: u in pcs && u != t ==>
      !HoldsMbox(pcs[u]) && TimerDepth(pcs[u]) == 0 && forall m :: !HoldsQueue(pcs[u], m)
  }

  lemma CalmUnblocks(s: State, t: Tid)
    requires Calm(s.pcs, t)
    ensures !Blocked(s, t)
  {
  }

  /** In a run from o, and since b, only thread t has moved. */
  ghost predicate Alone(c: Config, o: State, b: State, t: Tid, s: State) {
    && Leads(c, o, s) && Reachable(c, s) && Calm(b.pcs, t)
    && t in s.pcs && s.pcs == b.pcs[t := s.pcs[t]]
  }

  lemma StaysAlone(c: Config, o: State, b: State, t: Tid, s: State, a: Act) returns (s': State)
    requires Alone(c, o, b, t, s) && Can(c, s, t, a)
    ensures Alone(c, o, b, t, s') && s' == Do(c, s, t, a) && s'.pcs[t] == NextPc(c, s, t, a)
  {
    hide Leads, Reachable, Calm, Can, Do, NextPc;
    OneThreadMoves(c, s, t, a);
    LeadsOn(c, o, s, t, a);
    Extend(c, s, t, a);
    s' := Do(c, s, t, a);
  }

  lemma StillCalm(c: Config, o: State, b: State, t: Tid, s: State)
    requires Alone(c, o, b, t, s)
    ensures Calm(s.pcs, t)
  {
    hide Leads, Reachable, HoldsMbox, HoldsQueue, TimerDepth;
  }

  /** A thread inside a call that cannot be put to sleep has a step that brings it closer to its return. */
  lemma Moves(c: Config, s: State, t: Tid) returns (a: Act)
    requires Reachable(c, s) && t in s.pcs && Calm(s.pcs, t) && Busy(s.pcs[t])
    ensures Can(c, s, t, a) && Inside(s.pcs[t], a) && PcOk(c, s.pcs[t])
    ensures s.pcs[t].Sending? ==> Current(s.slots, s.log, s.pcs[t])
    ensures Rank(c, NextPc(c, s, t, a)) < Rank(c, s.pcs[t])
  {
    hide Reachable, Calm, Rank, Inv, SendInv, OwnInv, PayloadInv, HistoryInv, WakeInv, TimerInv, MonitorInv, LeakInv;
    CalmUnblocks(s, t);
    ReachableParts(c, s);
    LocalFacts(c, s, t);
    SlotCounts(c, s);
    NeverSleeps(c, s, t);
    UnblockedMoves(c, s, t);
    a :| Can(c, s, t, a) && !Spontaneous(a);
    BusyInside(c, s, t, a);
    hide Can;
    StepRanks(c, s, t, a);
  }

  lemma NeverSleeps(c: Config, s: State, t: Tid)
    requires t in s.pcs && PcOk(c, s.pcs[t]) && Busy(s.pcs[t])
    ensures !Sleeping(s, t)
  {
  }

  lemma BusyInside(c: Config, s: State, t: Tid, a: Act)
    requires Can(c, s, t, a) && Busy(s.pcs[t]) && !Spontaneous(a)
    ensures Inside(s.pcs[t], a)
  {
  }

  lemma BusyStays(c: Config, s: State, t: Tid, a: Act)
    requires Can(c, s, t, a) && Busy(s.pcs[t])
    ensures NextPc(c, s, t, a).Idle? || Busy(NextPc(c, s, t, a))
  {
    hide MboxFree, QueueFree, TimerFree, Sleeps;
  }

  lemma {:induction false} BusyCompletes(c: Config, o: State, b: State, t: Tid, s: State) returns (s': State)
    requires Alone(c, o, b, t, s) && (s.pcs[t].Idle? || Busy(s.pcs[t]))
    ensures Alone(c, o, b, t, s') && s'.pcs[t].Idle?
    decreases Rank(c, s.pcs[t])
  {
    hide Leads, Reachable, Calm, Rank, Can, Do, NextPc, PcOk, Current;
    if s.pcs[t].Idle? {
      s' := s;
    } else {
      StillCalm(c, o, b, t, s);
      var a := Moves(c, s, t);
      BusyStays(c, s, t, a);
      var s1 := StaysAlone(c, o, b, t, s, a);
      s' := BusyCompletes(c, o, b, t, s1);
    }
  }

  // Waiting -----------------------------------------------------------------------------------------

  /** What pop and popWait still have to do when popWait's time runs out, or pop finds an element. */
  function Left(pc: PC, asleep: bool): nat
    requires pc.Recv?
  {
    match pc.rs
    case RWant => 10
    case RTest(x) => if pc.mode.Timed? && !x then 9 else 4
    case RSaw(x, _) => if pc.mode.Timed? && !x then 8 else 3
    case RWait(x) => if pc.mode.Timed? && !x then 7 else if pc.mode.Timed? then 5 else 5 + One(asleep)
    case RLeave => 2
  }

  /** pop is certain to come back when there is an element for it. */
  ghost predicate Provided(s: State, pc: PC)
    requires pc.Recv?
  {
    pc.mode.Blocking? && !pc.rs.RLeave? ==> pc.m in s.queues && s.queues[pc.m] != []
  }

  lemma WaiterMoves(c: Config, s: State, t: Tid) returns (a: RecvAct)
    requires t in s.pcs && s.pcs[t].Recv? && !s.pcs[t].mode.Try? && Provided(s, s.pcs[t])
    requires Calm(s.pcs, t)
    requires PcOk(c, s.pcs[t]) && SeenOk(c, s.queues, s.pcs[t])
    requires s.queues.Keys == c.caps.Keys && s.popped.Keys == c.caps.Keys && WaitersOk(s.pcs, s.asleep)
    ensures CanRecv(c, s, t, s.pcs[t], a) && 0 < Left(s.pcs[t], t in s.asleep)
    ensures var s' := DoRecv(c, s, t, s.pcs[t], a);
            var next := RecvPc(c, s, t, s.pcs[t], a);
            && (next.Idle? || next.Recv?)
            && (next.Recv? ==>
                  && next.mode == s.pcs[t].mode && Provided(s', next)
                  && Left(next, t in s'.asleep) < Left(s.pcs[t], t in s.asleep))
  {
    var pc := s.pcs[t];
    match pc.rs {
      case RWant => a := LockR;
      case RTest(_) => a := Look;
      case RSaw(x, found) => a := if found then Pop else if pc.mode.Timed? && x then GiveUp else Sleep;
      case RWait(x) =>
        a := if pc.mode.Timed? then (if x then Relock else Timeout) else if t in s.asleep then Spurious else Relock;
      case RLeave => a := LeaveR;
    }
    assert WaitsForQueue(pc) ==> QueueFree(s.pcs, pc.m);
  }

  predicate WaitsForQueue(pc: PC) {
    pc.Recv? && (pc.rs.RWant? || pc.rs.RWait?)
  }

  lemma {:induction false} WaitCompletes(c: Config, o: State, b: State, t: Tid, s: State) returns (s': State)
    requires Alone(c, o, b, t, s)
    requires s.pcs[t].Idle? || (s.pcs[t].Recv? && !s.pcs[t].mode.Try? && Provided(s, s.pcs[t]))
    ensures Alone(c, o, b, t, s') && s'.pcs[t].Idle?
    decreases if s.pcs[t].Recv? then Left(s.pcs[t], t in s.asleep) else 0
  {
    hide Leads, Reachable, Calm, Left, CanRecv, DoRecv, RecvPc, Provided, PcOk, SeenOk;
    if s.pcs[t].Idle? {
      s' := s;
    } else {
      StillCalm(c, o, b, t, s);
      WaiterFacts(c, s, t);
      var a := WaiterMoves(c, s, t);
      var s1 := StaysAlone(c, o, b, t, s, Rcv(a));
      s' := WaitCompletes(c, o, b, t, s1);
    }
  }

  lemma WaiterFacts(c: Config, s: State, t: Tid)
    requires Reachable(c, s) && t in s.pcs
    ensures PcOk(c, s.pcs[t]) && SeenOk(c, s.queues, s.pcs[t])
    ensures s.queues.Keys == c.caps.Keys && s.popped.Keys == c.caps.Keys && WaitersOk(s.pcs, s.asleep)
  {
    hide Reachable, PcOk, SeenOk, Inv, SendInv, OwnInv, PayloadInv, HistoryInv, TimerInv, MonitorInv, LeakInv;
    hide WaitersOk;
    ReachableParts(c, s);
    LocalFacts(c, s, t);
    SeenHere(c, s, t);
    TablesOk(c, s, 0);
  }

  /**
   * While nobody else is inside a mutex, a thread can complete whatever call it is in, and no other thread moves. pop
   * needs an element for that; popWait comes back when its time has run out.
   */
  lemma CallsComplete(c: Config, s: State, t: Tid)
    requires Reachable(c, s) && t in s.pcs && Calm(s.pcs, t)
    requires s.pcs[t].Recv? ==> Provided(s, s.pcs[t])
    ensures exists s' :: Leads(c, s, s') && s'.pcs == s.pcs[t := Idle]
  {
    hide Leads, Reachable, Calm, Provided;
    LeadsHere(c, s);
    assert s.pcs == s.pcs[t := s.pcs[t]];
    var s';
    if s.pcs[t].Idle? || Busy(s.pcs[t]) {
      s' := BusyCompletes(c, s, s, t, s);
    } else {
      s' := WaitCompletes(c, s, s, t, s);
    }
  }

  /** An idle thread may begin any call, with any arguments. */
  lemma CallsBegin(c: Config, s: State, t: Tid)
    requires Reachable(c, s) && t in s.pcs && s.pcs[t].Idle?
    ensures forall l: Label, d: Option<seq<Byte>> :: (d.Some? ==> 0 < |d.value|) ==> Can(c, s, t, Snd(Start(l, d)))
    ensures forall m, mode :: m in c.caps ==> Can(c, s, t, Rcv(StartRecv(m, mode)))
    ensures forall b :: b in s.held ==> Can(c, s, t, Fre(Release(b)))
    ensures forall b, bytes :: b in s.held && b in s.heap && |bytes| == |s.heap[b].bytes| ==>
              Can(c, s, t, Fre(Write(b, bytes)))
    ensures forall l: Label, m, add :: m in c.caps ==> Can(c, s, t, Rgs(StartReg(l, m, add)))
    ensures forall top :: Can(c, s, t, Tmr(StartTim(top)))
  {
  }
}

/** How many of its own steps a call takes, and so how long a mutex can be held. */
module Bounds {
  import opened Messages
  import opened Threads
  import opened System
  import opened Locks
  import opened Broadcast
  import opened Invariant
  import opened Progress

  function StageRank(st: Stage): nat {
    match st
    case AtSlot => 10
    case Checked => 9
    case Got(_) => 8
    case Fill(_) => 7
    case Bad(_) => 6
    case WantQ(_, _) => 5
    case InQ(_, _) => 4
    case Tested(_, _, _) => 3
    case Pushed(_) => 2
    case LeaveQ(_) => 1
  }

  /** An upper bound on the number of steps thread code still takes in the current call. */
  function Rank(c: Config, pc: PC): nat {
    match pc
    case Idle => 0
    case SWant(_) => 16 + 10 * c.maxReceivers
    case SRejected(_) => 5
    case Sending(_, i, _, st) => 5 + 10 * (if i <= c.maxReceivers then c.maxReceivers - i else 0) + StageRank(st)
    case Recv(_, _, rs) =>
      (match rs case RWant => 5 case RWait(_) => 4 case RTest(_) => 3 case RSaw(_, _) => 2 case RLeave => 1)
    case Freeing(_, _) => 2
    case Freed(_) => 1
    case Reg(_, _, _, gs) => (match gs case WantG => 3 case DoG => 2 case LeaveG => 1)
    case Tim(_, ts) => (match ts case WantT => 3 case DoT => 2 case LeaveT => 1)
    case Hand(_, hs) =>
      (match hs
       case HWant => 18 + 10 * c.maxReceivers
       case HFire => 17 + 10 * c.maxReceivers
       case HAfter => 4
       case HCancel => 3
       case HCancelled => 2
       case HLeave => 1)
  }

  /** A step of a call already begun, other than going to sleep. */
  predicate Inside(pc: PC, a: Act) {
    !pc.Idle? && !Spontaneous(a) && a != Rcv(Sleep)
  }

  /** Inside a call that cannot be put to sleep: any call but pop and popWait. */
  predicate Busy(pc: PC) {
    !pc.Idle? && (pc.Recv? ==> pc.mode.Try?)
  }

  lemma AtSlotRanks(c: Config, s: State, pc: PC, a: SendAct)
    requires CanSend(c, s, pc, a) && pc.Sending? && pc.st.AtSlot? && PcOk(c, pc)
    requires pc.op.lab in s.slots ==> |s.slots[pc.op.lab]| == c.maxReceivers
    ensures Rank(c, SendPc(c, s, pc, a)) < Rank(c, pc)
  {
    hide OpOk, TooLarge, PoolOf;
  }

  lemma InSlotRanks(c: Config, s: State, pc: PC, a: SendAct)
    requires CanSend(c, s, pc, a) && pc.Sending? && !pc.st.AtSlot? && PcOk(c, pc)
    ensures Rank(c, SendPc(c, s, pc, a)) < Rank(c, pc)
  {
    hide OpOk, TooLarge, PoolOf, MboxFree, QueueFree, Sleeps;
  }

  lemma SendRanks(c: Config, s: State, t: Tid, a: SendAct)
    requires t in s.pcs && CanSend(c, s, s.pcs[t], a) && !s.pcs[t].Idle?
    requires PcOk(c, s.pcs[t]) && (forall l: Label :: l in s.slots ==> |s.slots[l]| == c.maxReceivers)
    ensures Rank(c, SendPc(c, s, s.pcs[t], a)) < Rank(c, s.pcs[t])
  {
    if s.pcs[t].Sending? {
      hide CanSend, SendPc, PcOk, Rank;
      if s.pcs[t].st.AtSlot? {
        AtSlotRanks(c, s, s.pcs[t], a);
      } else {
        InSlotRanks(c, s, s.pcs[t], a);
      }
    }
  }

  lemma RecvRanks(c: Config, s: State, t: Tid, a: RecvAct)
    requires t in s.pcs && CanRecv(c, s, t, s.pcs[t], a) && Inside(s.pcs[t], Rcv(a))
    ensures Rank(c, RecvPc(c, s, t, s.pcs[t], a)) < Rank(c, s.pcs[t])
  {
  }

  lemma TimerRanks(c: Config, s: State, t: Tid, a: TimerAct)
    requires t in s.pcs && CanTimer(c, s, t, s.pcs[t], a) && Inside(s.pcs[t], Tmr(a))
    ensures Rank(c, TimerPc(c, s, t, s.pcs[t], a)) < Rank(c, s.pcs[t])
  {
  }

  lemma SlotCounts(c: Config, s: State)
    requires SendInv(c, s)
    ensures forall l: Label :: l in s.slots ==> |s.slots[l]| == c.maxReceivers
  {
  }

  /** Each step inside a call brings the call closer to its return; other threads do not notice. */
  lemma StepRanks(c: Config, s: State, t: Tid, a: Act)
    requires Can(c, s, t, a) && PcOk(c, s.pcs[t])
    requires forall l: Label :: l in s.slots ==> |s.slots[l]| == c.maxReceivers
    ensures Inside(s.pcs[t], a) ==> Rank(c, NextPc(c, s, t, a)) < Rank(c, s.pcs[t])
    ensures Busy(s.pcs[t]) && !Inside(s.pcs[t], a) ==> NextPc(c, s, t, a) == s.pcs[t]
  {
    hide Rank;
    if Inside(s.pcs[t], a) {
      match a
      case Snd(x) => SendRanks(c, s, t, x);
      case Rcv(x) => RecvRanks(c, s, t, x);
      case Tmr(x) => TimerRanks(c, s, t, x);
      case Fre(x) => FreeRanks(c, s, t, x);
      case Rgs(x) => RegRanks(c, s, t, x);
    }
  }

  lemma FreeRanks(c: Config, s: State, t: Tid, a: FreeAct)
    requires t in s.pcs && CanFree(s, s.pcs[t], a) && !s.pcs[t].Idle?
    ensures Rank(c, FreePc(c, s, s.pcs[t], a)) < Rank(c, s.pcs[t])
  {
  }

  lemma RegRanks(c: Config, s: State, t: Tid, a: RegAct)
    requires t in s.pcs && CanReg(c, s, s.pcs[t], a) && !s.pcs[t].Idle?
    ensures Rank(c, RegPc(c, s, s.pcs[t], a)) < Rank(c, s.pcs[t])
  {
  }

  /** How many of the steps before position k thread t took itself. */
  ghost function OwnSteps(ss: seq<State>, steps: seq<Step>, t: Tid, k: nat): nat
    requires k <= |steps| < |ss|
  {
    if k == 0 then 0
    else
      OwnSteps(ss, steps, t, k - 1) +
      (if steps[k - 1].t == t && t in ss[k - 1].pcs && Inside(ss[k - 1].pcs[t], steps[k - 1].a) then 1 else 0)
  }

  /**
   * While a thread is inside one call of anything but pop and popWait, the steps it takes and the steps it still needs
   * never exceed its rank at the start, whatever the other threads do.
   */
  lemma {:induction false} CallsAreBounded(c: Config, ss: seq<State>, steps: seq<Step>, t: Tid, k: nat)
    requires Run(c, ss, steps) && Reachable(c, ss[0]) && t in ss[0].pcs && k <= |steps|
    requires forall j :: 0 <= j < k ==> t in ss[j].pcs && Busy(ss[j].pcs[t])
    ensures t in ss[k].pcs
    ensures OwnSteps(ss, steps, t, k) + Rank(c, ss[k].pcs[t]) <= Rank(c, ss[0].pcs[t])
  {
    if k == 0 {
    } else {
      hide Reachable, Rank, Busy, Inside;
      CallsAreBounded(c, ss, steps, t, k - 1);
      OneCallStep(c, ss, steps, t, k - 1);
    }
  }

  lemma OneCallStep(c: Config, ss: seq<State>, steps: seq<Step>, t: Tid, k: nat)
    requires Run(c, ss, steps) && Reachable(c, ss[0]) && k < |steps| && t in ss[k].pcs && Busy(ss[k].pcs[t])
    ensures t in ss[k + 1].pcs
    ensures Rank(c, ss[k + 1].pcs[t]) + (if steps[k].t == t && Inside(ss[k].pcs[t], steps[k].a) then 1 else 0)
            <= Rank(c, ss[k].pcs[t])
  {
    hide Reachable, Inv, Rank, Do, Can, NextPc, Inside, Busy;
    ReachableInv(c, ss[0]);
    RunKeepsInv(c, ss, steps, k);
    var step, s := steps[k], ss[k];
    assert Can(c, s, step.t, step.a) && ss[k + 1] == Do(c, s, step.t, step.a);
    OneThreadMoves(c, s, step.t, step.a);
    InvGives(c, s, step.t);
    StepRanks(c, s, step.t, step.a);
  }

  lemma InvGives(c: Config, s: State, t: Tid)
    requires Inv(c, s) && t in s.pcs
    ensures PcOk(c, s.pcs[t])
    ensures forall l: Label :: l in s.slots ==> |s.slots[l]| == c.maxReceivers
  {
    SlotCounts(c, s);
  }

  lemma MboxRank(c: Config, pc: PC)
    requires HoldsMbox(pc) && PcOk(c, pc)
    ensures Busy(pc) && 0 < Rank(c, pc) <= 15 + 10 * c.maxReceivers
  {
  }

  lemma TimerRank(c: Config, pc: PC)
    requires TimerDepth(pc) > 0 && PcOk(c, pc)
    ensures Busy(pc) && 0 < Rank(c, pc) <= 17 + 10 * c.maxReceivers
  {
  }

  lemma BusyRun(c: Config, ss: seq<State>, steps: seq<Step>, t: Tid, k: nat)
    requires Run(c, ss, steps) && Reachable(c, ss[0]) && k <= |steps|
    requires forall j :: 0 <= j <= k ==> t in ss[j].pcs && Busy(ss[j].pcs[t])
    ensures PcOk(c, ss[0].pcs[t]) && PcOk(c, ss[k].pcs[t])
    ensures OwnSteps(ss, steps, t, k) + Rank(c, ss[k].pcs[t]) <= Rank(c, ss[0].pcs[t])
  {
    hide Inv, Rank, Reachable, OwnSteps, Busy, PcOk;
    ReachableInv(c, ss[0]);
    RunKeepsInv(c, ss, steps, k);
    CallsAreBounded(c, ss, steps, t, k);
    InvGives(c, ss[0], t);
    InvGives(c, ss[k], t);
  }

  lemma BusyWithMutex(c: Config, ss: seq<State>, steps: seq<Step>, t: Tid, k: nat)
    requires Run(c, ss, steps) && Reachable(c, ss[0]) && k <= |steps|
    requires forall j :: 0 <= j <= k ==> t in ss[j].pcs && (HoldsMbox(ss[j].pcs[t]) || TimerDepth(ss[j].pcs[t]) > 0)
    ensures PcOk(c, ss[0].pcs[t]) && PcOk(c, ss[k].pcs[t])
    ensures OwnSteps(ss, steps, t, k) + Rank(c, ss[k].pcs[t]) <= Rank(c, ss[0].pcs[t])
  {
    hide Rank, Reachable, OwnSteps, PcOk;
    assert forall j :: 0 <= j <= k ==> t in ss[j].pcs && Busy(ss[j].pcs[t]);
    hide Busy;
    BusyRun(c, ss, steps, t, k);
  }

  /** A thread keeps the mailbox mutex for at most 14 + 10 * MAX_RECEIVERS of its own steps. */
  lemma MailboxMutexReleased(c: Config, ss: seq<State>, steps: seq<Step>, t: Tid, k: nat)
    requires Run(c, ss, steps) && Reachable(c, ss[0]) && k <= |steps|
    requires forall j :: 0 <= j <= k ==> t in ss[j].pcs && HoldsMbox(ss[j].pcs[t])
    ensures OwnSteps(ss, steps, t, k) <= 14 + 10 * c.maxReceivers
  {
    BusyWithMutex(c, ss, steps, t, k);
    hide Run, Rank, Reachable, OwnSteps;
    MboxRank(c, ss[0].pcs[t]);
    MboxRank(c, ss[k].pcs[t]);
  }

  /** And the timer mutex, in which the handler sends a signal, for at most 16 + 10 * MAX_RECEIVERS. */
  lemma TimerMutexReleased(c: Config, ss: seq<State>, steps: seq<Step>, t: Tid, k: nat)
    requires Run(c, ss, steps) && Reachable(c, ss[0]) && k <= |steps|
    requires forall j :: 0 <= j <= k ==> t in ss[j].pcs && TimerDepth(ss[j].pcs[t]) > 0
    ensures OwnSteps(ss, steps, t, k) <= 16 + 10 * c.maxReceivers
  {
    BusyWithMutex(c, ss, steps, t, k);
    hide Run, Rank, Reachable, OwnSteps;
    TimerRank(c, ss[0].pcs[t]);
    TimerRank(c, ss[k].pcs[t]);
  }
}

/** The invariant of the whole system, kept by every step and so true in every state of every run. */
module Invariant {
  import opened Messages
  import opened Threads
  import opened System
  import opened Broadcast
  import opened Ownership
  import opened Payload
  import opened Pools
  import opened History
  import opened Wakeup
  import opened TimerTable
  import opened Monitor
  import opened Leaks

  ghost predicate Inv(c: Config, s: State) {
    && SendInv(c, s)
    && MonitorInv(c, s)
    && OwnInv(s)
    && PayloadInv(c, s)
    && (c.sizes.RoutesOk() ==> PoolInv(c, s))
    && HistoryInv(c, s)
    && WakeInv(s)
    && TimerInv(c, s)
    && LeakInv(c, s)
  }

  lemma InitInv(c: Config, s: State)
    requires Init(c, s)
    ensures Inv(c, s)
  {
    InitSend(c, s);
    InitMonitor(c, s);
    InitOwn(c, s);
    InitPayload(c, s);
    InitPools(c, s);
    InitHistory(c, s);
    InitWake(c, s);
    InitTimers(c, s);
    InitLeaks(c, s);
  }

  lemma ExclusionHolds(c: Config, s: State)
    requires SendInv(c, s)
    ensures Exclusion(s.pcs, c.handler)
  {
  }

  lemma SendKeepsInv(c: Config, s: State, t: Tid, a: SendAct)
    requires t in s.pcs && CanSend(c, s, s.pcs[t], a) && Inv(c, s)
    ensures Inv(c, DoSend(c, s, t, s.pcs[t], a))
  {
    hide SendInv, MonitorInv, LeakInv, OwnInv, PayloadInv, PoolInv, HistoryInv, WakeInv, TimerInv;
    hide PcOk, Current, CanSend, DoSend;
    LocalFacts(c, s, t);
    PutNeverFails(c, s, t);
    SeenHere(c, s, t);
    ExclusionHolds(c, s);
    hide SeenOk, Exclusion, ThreadCell;
    SendKeepsSend(c, s, t, a);
    SendKeepsMonitor(c, s, t, a);
    SendKeepsLeaks(c, s, t, a);
    SendKeepsOwn(c, s, t, a);
    SendKeepsPayload(c, s, t, a);
    if c.sizes.RoutesOk() {
      SendKeepsPools(c, s, t, a);
    }
    SendKeepsHistory(c, s, t, a);
    SendKeepsWake(c, s, t, a);
    SendKeepsTimers(c, s, t, a);
  }

  lemma RecvKeepsInv(c: Config, s: State, t: Tid, a: RecvAct)
    requires t in s.pcs && CanRecv(c, s, t, s.pcs[t], a) && Inv(c, s)
    ensures Inv(c, DoRecv(c, s, t, s.pcs[t], a))
  {
    hide SendInv, MonitorInv, LeakInv, OwnInv, PayloadInv, PoolInv, HistoryInv, WakeInv, TimerInv, CanRecv, DoRecv;
    SeenHere(c, s, t);
    ExclusionHolds(c, s);
    hide SeenOk, Exclusion;
    RecvKeepsSend(c, s, t, a);
    RecvKeepsMonitor(c, s, t, a);
    RecvKeepsLeaks(c, s, t, a);
    RecvKeepsOwn(c, s, t, a);
    RecvKeepsPayload(c, s, t, a);
    if c.sizes.RoutesOk() {
      OthersKeepPools(c, s, t, Rcv(a));
    }
    RecvKeepsHistory(c, s, t, a);
    RecvKeepsWake(c, s, t, a);
    RecvKeepsTimers(c, s, t, a);
  }

  lemma FreeKeepsInv(c: Config, s: State, t: Tid, a: FreeAct)
    requires t in s.pcs && CanFree(s, s.pcs[t], a) && Inv(c, s)
    ensures Inv(c, DoFree(c, s, t, s.pcs[t], a))
  {
    hide SendInv, MonitorInv, LeakInv, OwnInv, PayloadInv, PoolInv, WakeInv, TimerInv, CanFree;
    FreeKeepsSend(c, s, t, a);
    OthersKeepMonitor(c, s, t, Fre(a));
    FreeKeepsLeaks(c, s, t, a);
    FreeKeepsOwn(c, s, t, a);
    FreeKeepsPayload(c, s, t, a);
    if c.sizes.RoutesOk() {
      FreeKeepsPools(c, s, t, a);
    }
    OthersKeepWake(c, s, t, Fre(a));
    FreeKeepsTimers(c, s, t, a);
  }

  lemma RegKeepsInv(c: Config, s: State, t: Tid, a: RegAct)
    requires t in s.pcs && CanReg(c, s, s.pcs[t], a) && Inv(c, s)
    ensures Inv(c, DoRegister(c, s, t, s.pcs[t], a))
  {
    hide SendInv, MonitorInv, LeakInv, OwnInv, PayloadInv, PoolInv, WakeInv, TimerInv, CanReg;
    RegKeepsSend(c, s, t, a);
    OthersKeepMonitor(c, s, t, Rgs(a));
    RegKeepsLeaks(c, s, t, a);
    OthersKeepOwn(c, s, t, Rgs(a));
    OthersKeepPayload(c, s, t, Rgs(a));
    if c.sizes.RoutesOk() {
      OthersKeepPools(c, s, t, Rgs(a));
    }
    OthersKeepWake(c, s, t, Rgs(a));
    RegKeepsTimers(c, s, t, a);
  }

  lemma TimerKeepsInv(c: Config, s: State, t: Tid, a: TimerAct)
    requires t in s.pcs && CanTimer(c, s, t, s.pcs[t], a) && Inv(c, s)
    ensures Inv(c, DoTimers(c, s, t, s.pcs[t], a))
  {
    hide SendInv, MonitorInv, LeakInv, OwnInv, PayloadInv, PoolInv, WakeInv, TimerInv, CanTimer;
    ExclusionHolds(c, s);
    TimerKeepsSend(c, s, t, a);
    OthersKeepMonitor(c, s, t, Tmr(a));
    TimerKeepsLeaks(c, s, t, a);
    OthersKeepOwn(c, s, t, Tmr(a));
    OthersKeepPayload(c, s, t, Tmr(a));
    if c.sizes.RoutesOk() {
      OthersKeepPools(c, s, t, Tmr(a));
    }
    OthersKeepWake(c, s, t, Tmr(a));
    TimersKeepTimers(c, s, t, a);
  }

  /** No step of any thread breaks the invariant. */
  lemma StepKeepsInv(c: Config, s: State, t: Tid, a: Act)
    requires Can(c, s, t, a) && Inv(c, s)
    ensures Inv(c, Do(c, s, t, a))
  {
    hide Inv;
    match a
    case Snd(x) => SendKeepsInv(c, s, t, x);
    case Rcv(x) => RecvKeepsInv(c, s, t, x);
    case Fre(x) => FreeKeepsInv(c, s, t, x);
    case Rgs(x) => RegKeepsInv(c, s, t, x);
    case Tmr(x) => TimerKeepsInv(c, s, t, x);
  }

  lemma {:induction false} RunKeepsInv(c: Config, ss: seq<State>, steps: seq<Step>, k: nat)
    requires Run(c, ss, steps) && k <= |steps| && Inv(c, ss[0])
    ensures Inv(c, ss[k])
  {
    hide Inv;
    if k == 0 {
    } else {
      RunKeepsInv(c, ss, steps, k - 1);
      StepKeepsInv(c, ss[k - 1], steps[k - 1].t, steps[k - 1].a);
      assert ss[k - 1 + 1] == Do(c, ss[k - 1], steps[k - 1].t, steps[k - 1].a);
    }
  }

  lemma ReachableInv(c: Config, s: State)
    requires Reachable(c, s)
    ensures Inv(c, s)
  {
    var ss, steps :| Run(c, ss, steps) && Init(c, ss[0]) && ss[|steps|] == s;
    InitInv(c, ss[0]);
    RunKeepsInv(c, ss, steps, |steps|);
  }

  /** The parts of the invariant, for readers of a single one. */
  lemma ReachableParts(c: Config, s: State)
    requires Reachable(c, s)
    ensures SendInv(c, s) && OwnInv(s) && PayloadInv(c, s) && HistoryInv(c, s) && WakeInv(s) && TimerInv(c, s)
    ensures MonitorInv(c, s) && LeakInv(c, s)
    ensures c.sizes.RoutesOk() ==> PoolInv(c, s)
  {
    hide SendInv, MonitorInv, LeakInv, OwnInv, PayloadInv, PoolInv, HistoryInv, WakeInv, TimerInv, Reachable;
    ReachableInv(c, s);
  }

  lemma ExclusionOf(c: Config, s: State)
    requires Inv(c, s)
    ensures Exclusion(s.pcs, c.handler)
  {
    hide MonitorInv, LeakInv, OwnInv, PayloadInv, PoolInv, HistoryInv, WakeInv, TimerInv, Exclusion;
    ExclusionHolds(c, s);
  }

  lemma MonitorOf(c: Config, s: State)
    requires Inv(c, s)
    ensures MonitorInv(c, s)
  {
    hide SendInv, MonitorInv, LeakInv, OwnInv, PayloadInv, PoolInv, HistoryInv, WakeInv, TimerInv;
  }

  lemma RecordsOk(c: Config, s: State, n: nat)
    requires SendInv(c, s) && n < |s.log|
    ensures RecOk(c, s.log[n])
  {
  }

  lemma CellsOfThread(c: Config, s: State, t: Tid)
    requires PayloadInv(c, s) && t in s.pcs
    ensures ThreadCell(c, s.pcs[t], s.heap)
  {
  }

  lemma SenderFacts(c: Config, s: State, t: Tid)
    requires Inv(c, s) && t in s.pcs && s.pcs[t].Sending?
    ensures Current(s.slots, s.log, s.pcs[t]) && s.queues.Keys == c.caps.Keys && SeenOk(c, s.queues, s.pcs[t])
  {
    hide OwnInv, PayloadInv, PoolInv, HistoryInv, WakeInv, TimerInv, LeakInv, Current;
    SeenHere(c, s, t);
  }

  lemma InitReachable(c: Config, s: State)
    requires Init(c, s)
    ensures Reachable(c, s)
  {
    var ss: seq<State>, steps: seq<Step> := [s], [];
    assert Run(c, ss, steps) && ss[|steps|] == s;
  }

  lemma ExtendRun(c: Config, ss: seq<State>, steps: seq<Step>, t: Tid, a: Act)
    requires Run(c, ss, steps) && Can(c, ss[|steps|], t, a)
    ensures Run(c, ss + [Do(c, ss[|steps|], t, a)], steps + [Step(t, a)])
  {
    var ss' := ss + [Do(c, ss[|steps|], t, a)];
    var steps' := steps + [Step(t, a)];
    hide Can, Do;
    forall k | 0 <= k < |steps'|
      ensures Can(c, ss'[k], steps'[k].t, steps'[k].a) && ss'[k + 1] == Do(c, ss'[k], steps'[k].t, steps'[k].a)
    {
      if k < |steps| {
        assert ss'[k] == ss[k] && ss'[k + 1] == ss[k + 1] && steps'[k] == steps[k];
      }
    }
  }

  lemma Extend(c: Config, s: State, t: Tid, a: Act)
    requires Reachable(c, s) && Can(c, s, t, a)
    ensures Reachable(c, Do(c, s, t, a))
  {
    hide Can, Do, Init;
    var ss, steps :| Run(c, ss, steps) && Init(c, ss[0]) && ss[|steps|] == s;
    ExtendRun(c, ss, steps, t, a);
    var ss' := ss + [Do(c, s, t, a)];
    assert ss'[0] == ss[0] && ss'[|steps + [Step(t, a)]|] == Do(c, s, t, a);
  }
}

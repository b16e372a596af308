/** Main results about timers, for every run. */
module TimerRuns {
  import opened Messages
  import opened Threads
  import opened System
  import opened Locks
  import opened Broadcast
  import opened Ownership
  import opened Payload
  import opened Pools
  import opened History
  import opened Wakeup
  import opened TimerTable
  import opened Invariant
  import opened Leaks
  import opened Monitor

  /** m_timers and the Timer objects alive determine each other. */
  lemma TableMatchesTimers(c: Config, s: State)
    requires Reachable(c, s)
    ensures forall l: Label :: l in s.tm.table ==>
              s.tm.table[l] in s.tm.objs && s.tm.table[l] < |s.tm.started| && s.tm.started[s.tm.table[l]].lab == l
    ensures forall id :: id in s.tm.objs ==>
              id < |s.tm.started| && s.tm.started[id].lab in s.tm.table && s.tm.table[s.tm.started[id].lab] == id
  {
    hide Reachable, SendInv, OwnInv, PayloadInv, PoolInv, HistoryInv, WakeInv, MonitorInv, LeakInv;
    hide AllFiringOk, OneShotOk;
    ReachableParts(c, s);
  }

  /**
   * No live timer is forgotten: a periodic one stays armed, and a one-shot is armed, or has expired and waits to be
   * dequeued, or the handler has it at hand; never two of these.
   */
  lemma LiveTimersRun(c: Config, s: State, id: TimerId)
    requires Reachable(c, s) && id in s.tm.objs
    ensures id < |s.tm.started|
    ensures !s.tm.started[id].oneShot ==> id in s.tm.armed
    ensures s.tm.started[id].oneShot ==>
              One(id in s.tm.armed) + One(id in s.tm.pending) + One(AtHand(HandlerPc(s.pcs, c.handler), id)) == 1
  {
    hide Reachable, SendInv, OwnInv, PayloadInv, PoolInv, HistoryInv, WakeInv, MonitorInv, LeakInv;
    hide AllFiringOk, OneShotOk;
    ReachableParts(c, s);
    assert RunsOk(s.tm, HandlerPc(s.pcs, c.handler), id);
  }

  /** A one-shot that the handler has dealt with is gone, and its label is free until the handler lets go of the mutex. */
  lemma FiredOneShotIsGone(c: Config, s: State, t: Tid)
    requires Reachable(c, s) && t in s.pcs && s.pcs[t].Hand? && (s.pcs[t].hs.HCancelled? || s.pcs[t].hs.HLeave?)
    ensures var id := s.pcs[t].id;
            id < |s.tm.started| && (s.tm.started[id].oneShot ==> id !in s.tm.objs && s.tm.started[id].lab !in s.tm.table)
  {
    hide Reachable;
    FiringFacts(c, s, t);
  }

  /**
   * A successful one-shot start leads to at most one SendSignal, counting one that timerEvent makes for it after it has
   * been destroyed.
   */
  lemma OneShotFiresOnce(c: Config, s: State, id: TimerId)
    requires Reachable(c, s) && id < |s.tm.started| && s.tm.started[id].oneShot
    ensures multiset(s.tm.signals)[id] <= 1
  {
    hide Reachable, SendInv, OwnInv, PayloadInv, PoolInv, HistoryInv, WakeInv, MonitorInv, LeakInv, AllFiringOk, TableOk;
    ReachableParts(c, s);
    assert Budget(s.tm, HandlerPc(s.pcs, c.handler), id) <= 1;
  }

  // The nested cancel ---------------------------------------------------------------------------------

  lemma FiringFacts(c: Config, s: State, t: Tid)
    requires Reachable(c, s) && t in s.pcs
    ensures TableOk(s.tm) && FiringOk(s.pcs[t], s.tm)
  {
    hide Reachable, SendInv, MonitorInv, LeakInv, OwnInv, PayloadInv, PoolInv, HistoryInv, WakeInv, OneShotOk;
    ReachableParts(c, s);
    hide TableOk, FiringOk;
  }

  lemma CancelByLabel(tm: Timers, id: TimerId, oneShot: bool)
    requires TableOk(tm) && id < |tm.started|
    ensures var l := tm.started[id].lab;
            var tm' := CancelIn(tm, l);
            && tm'.table.Keys == tm.table.Keys - {l}
            && (forall k: Label :: k in tm'.table ==> tm'.table[k] == tm.table[k])
            && (id in tm.objs ==> tm'.objs == tm.objs - {id})
            && (id !in tm.objs && l in tm.table ==> tm.table[l] != id && tm'.objs == tm.objs - {tm.table[l]})
            && l in StartIn(tm', l, oneShot).table && StartIn(tm', l, oneShot).objs == tm'.objs + {|tm'.started|}
  {
  }

  lemma CancelDone(c: Config, s: State, t: Tid)
    requires Can(c, s, t, Tmr(HDoCancel))
    ensures s.pcs[t].Hand? && s.pcs[t].hs.HCancel? && s.pcs[t].id < |s.tm.started|
    ensures Do(c, s, t, Tmr(HDoCancel)).tm == CancelIn(s.tm, s.tm.started[s.pcs[t].id].lab)
  {
    hide CancelIn;
  }

  /**
   * timerEvent of a one-shot cancels by label. It destroys the timer that fired if and only if that timer is still
   * alive, and then leaves all other slots alone and the label free to be started again. If it is not, the timer
   * destroyed is one that was started for the label since.
   */
  lemma FiringCancelsItself(c: Config, s: State, t: Tid, oneShot: bool)
    requires Reachable(c, s) && Can(c, s, t, Tmr(HDoCancel))
    ensures TimerDepth(s.pcs[t]) == 2
    ensures s.pcs[t].id < |s.tm.started| && s.tm.started[s.pcs[t].id].oneShot
    ensures !s.tm.stale ==> s.pcs[t].id in s.tm.objs
    ensures var id := s.pcs[t].id;
            var l := s.tm.started[id].lab;
            var tm' := Do(c, s, t, Tmr(HDoCancel)).tm;
            && tm'.table.Keys == s.tm.table.Keys - {l}
            && (forall k: Label :: k in tm'.table ==> tm'.table[k] == s.tm.table[k])
            && (id in s.tm.objs ==> tm'.objs == s.tm.objs - {id})
            && (id !in s.tm.objs && l in s.tm.table ==> s.tm.table[l] != id && tm'.objs == s.tm.objs - {s.tm.table[l]})
            && l in StartIn(tm', l, oneShot).table && StartIn(tm', l, oneShot).objs == tm'.objs + {|tm'.started|}
  {
    CancelDone(c, s, t);
    FiringFacts(c, s, t);
    CancelByLabel(s.tm, s.pcs[t].id, oneShot);
    hide Reachable, TableOk, CancelIn, StartIn, Can, Do;
  }

  // Silence after a cancellation ----------------------------------------------------------------------

  /** The step is a successful startTimer for label l. */
  ghost predicate Starts(s: State, step: Step, l: Label) {
    && step.a == Tmr(DoTimer) && step.t in s.pcs && s.pcs[step.t].Tim?
    && s.pcs[step.t].top.StartTimer? && s.pcs[step.t].top.lab == l
  }

  /** From position k of the history on, no timer signal for label l. */
  ghost predicate SilentFrom(s: State, l: Label, signals: nat, log: nat) {
    && (forall x {:trigger s.tm.signals[x]} :: signals <= x < |s.tm.signals| ==>
          s.tm.signals[x] < |s.tm.started| && s.tm.started[s.tm.signals[x]].lab != l)
    && (forall x {:trigger s.log[x]} :: log <= x < |s.log| && s.log[x].op.origin.Fired? ==> s.log[x].op.lab != l)
  }

  /** The handler is about to send a signal for label l: it has dequeued an expiry, or is already in SendSignal. */
  predicate InHand(pc: PC, tm: Timers, l: Label) {
    || (pc.Hand? && (pc.hs.HWant? || pc.hs.HFire?) && pc.id < |tm.started| && tm.started[pc.id].lab == l)
    || (InFire(pc) && pc.op.lab == l)
  }

  ghost predicate NoneInHand(s: State, l: Label) {
    forall t {:trigger s.pcs[t]} :: t in s.pcs ==> !InHand(s.pcs[t], s.tm, l)
  }

  lemma TimerHand(c: Config, s: State, t: Tid, a: TimerAct, l: Label)
    requires t in s.pcs && CanTimer(c, s, t, s.pcs[t], a) && TableOk(s.tm) && FiringOk(s.pcs[t], s.tm)
    requires l !in s.tm.table && !InHand(s.pcs[t], s.tm, l) && !Starts(s, Step(t, Tmr(a)), l)
    ensures var tm' := NextTimers(c, s, t, s.pcs[t], a);
            && l !in tm'.table && s.tm.started <= tm'.started && !InHand(TimerPc(c, s, t, s.pcs[t], a), tm', l)
            && s.tm.signals <= tm'.signals
            && forall x :: |s.tm.signals| <= x < |tm'.signals| ==>
                 tm'.signals[x] < |tm'.started| && tm'.started[tm'.signals[x]].lab != l
  {
  }

  /** Others keep out of InHand when the list of timers only grows. */
  lemma OtherHands(s: State, t: Tid, next: PC, tm': Timers, l: Label)
    requires t in s.pcs && NoneInHand(s, l) && s.tm.started <= tm'.started && !InHand(next, tm', l)
    requires forall u {:trigger s.pcs[u]} :: u in s.pcs && s.pcs[u].Hand? ==> s.pcs[u].id < |s.tm.started|
    ensures NoneInHand(s.(pcs := s.pcs[t := next], tm := tm'), l)
  {
  }

  lemma SendHand(c: Config, s: State, t: Tid, a: SendAct, l: Label)
    requires t in s.pcs && CanSend(c, s, s.pcs[t], a) && !InHand(s.pcs[t], s.tm, l)
    ensures !InHand(SendPc(c, s, s.pcs[t], a), s.tm, l)
    ensures var log' := SendLog(c, s, s.pcs[t], a);
            && |s.log| <= |log'|
            && (forall x :: 0 <= x < |s.log| ==> log'[x].op == s.log[x].op)
            && (forall x :: |s.log| <= x < |log'| && log'[x].op.origin.Fired? ==> log'[x].op.lab != l)
  {
  }

  lemma OtherHand(c: Config, s: State, t: Tid, a: Act, l: Label)
    requires Can(c, s, t, a) && (a.Rcv? || a.Fre? || a.Rgs?)
    ensures !InHand(NextPc(c, s, t, a), s.tm, l)
  {
    match a
    case Rcv(_) => hide CanSend, CanFree, CanReg, CanTimer;
    case Fre(_) => hide CanSend, CanRecv, CanReg, CanTimer;
    case Rgs(_) => hide CanSend, CanRecv, CanFree, CanTimer;
  }

  lemma SilenceKept(s: State, s': State, l: Label, signals: nat, log: nat)
    requires SilentFrom(s, l, signals, log) && s.tm.started <= s'.tm.started && s.tm.signals <= s'.tm.signals
    requires forall x :: |s.tm.signals| <= x < |s'.tm.signals| ==>
               s'.tm.signals[x] < |s'.tm.started| && s'.tm.started[s'.tm.signals[x]].lab != l
    requires |s.log| <= |s'.log| && (forall x :: 0 <= x < |s.log| ==> s'.log[x].op == s.log[x].op)
    requires forall x :: |s.log| <= x < |s'.log| && s'.log[x].op.origin.Fired? ==> s'.log[x].op.lab != l
    ensures SilentFrom(s', l, signals, log)
  {
  }

  /** Label l has no timer, and nobody is about to send a signal for it. */
  ghost predicate Quiet(s: State, l: Label, signals: nat, log: nat) {
    l !in s.tm.table && NoneInHand(s, l) && SilentFrom(s, l, signals, log)
  }

  lemma HandsFacts(c: Config, s: State)
    requires TimerInv(c, s)
    ensures forall u {:trigger s.pcs[u]} :: u in s.pcs && s.pcs[u].Hand? ==> s.pcs[u].id < |s.tm.started|
  {
    hide TableOk, OneShotOk;
  }

  lemma TimerStepQuiet(c: Config, s: State, t: Tid, a: TimerAct, l: Label, signals: nat, log: nat)
    requires TimerInv(c, s) && t in s.pcs && CanTimer(c, s, t, s.pcs[t], a)
    requires Quiet(s, l, signals, log) && !Starts(s, Step(t, Tmr(a)), l)
    ensures Quiet(DoTimers(c, s, t, s.pcs[t], a), l, signals, log)
  {
    assert FiringOk(s.pcs[t], s.tm);
    HandsFacts(c, s);
    hide TimerInv, TableOk, FiringOk, SilentFrom, Starts;
    TimerHand(c, s, t, a, l);
    hide InHand, CanTimer, TimerPc, NextTimers;
    OtherHands(s, t, TimerPc(c, s, t, s.pcs[t], a), NextTimers(c, s, t, s.pcs[t], a), l);
    SilenceKept(s, DoTimers(c, s, t, s.pcs[t], a), l, signals, log);
  }

  lemma SendStepQuiet(c: Config, s: State, t: Tid, a: SendAct, l: Label, signals: nat, log: nat)
    requires TimerInv(c, s) && t in s.pcs && CanSend(c, s, s.pcs[t], a) && Quiet(s, l, signals, log)
    ensures Quiet(DoSend(c, s, t, s.pcs[t], a), l, signals, log)
  {
    HandsFacts(c, s);
    hide TimerInv, SilentFrom;
    SendHand(c, s, t, a, l);
    hide InHand, CanSend, SendPc, SendLog, SendFree, SendHeap, SendPlace, SendQueues;
    OtherHands(s, t, SendPc(c, s, s.pcs[t], a), s.tm, l);
    SilenceKept(s, DoSend(c, s, t, s.pcs[t], a), l, signals, log);
  }

  /** Receiving, releasing and registering touch neither timers nor the log. */
  lemma OthersLeaveTimers(c: Config, s: State, t: Tid, a: Act)
    requires Can(c, s, t, a) && (a.Rcv? || a.Fre? || a.Rgs?)
    ensures Do(c, s, t, a).tm == s.tm && Do(c, s, t, a).log == s.log
  {
    hide CanSend, CanRecv, CanFree, CanReg, CanTimer, DoRecv, DoFree, DoRegister;
    if a.Rcv? {
      RecvMoves(c, s, t, s.pcs[t], a.r);
    } else if a.Fre? {
      FreeMoves(c, s, t, s.pcs[t], a.f);
    } else {
      RegMoves(c, s, t, s.pcs[t], a.g);
    }
  }

  lemma OtherStepQuiet(c: Config, s: State, t: Tid, a: Act, l: Label, signals: nat, log: nat)
    requires TimerInv(c, s) && Can(c, s, t, a) && (a.Rcv? || a.Fre? || a.Rgs?) && Quiet(s, l, signals, log)
    ensures Quiet(Do(c, s, t, a), l, signals, log)
  {
    HandsFacts(c, s);
    hide TimerInv, SilentFrom, Can, Do, NextPc;
    OneThreadMoves(c, s, t, a);
    OthersLeaveTimers(c, s, t, a);
    OtherHand(c, s, t, a, l);
    hide InHand;
    OtherHands(s, t, NextPc(c, s, t, a), s.tm, l);
    SilenceKept(s, Do(c, s, t, a), l, signals, log);
  }

  lemma TimersOf(c: Config, s: State)
    requires Inv(c, s)
    ensures TimerInv(c, s)
  {
    hide SendInv, MonitorInv, LeakInv, OwnInv, PayloadInv, PoolInv, HistoryInv, WakeInv, TimerInv;
  }

  lemma StepQuiet(c: Config, s: State, t: Tid, a: Act, l: Label, signals: nat, log: nat)
    requires Inv(c, s) && Can(c, s, t, a)
    requires Quiet(s, l, signals, log) && !Starts(s, Step(t, a), l)
    ensures Quiet(Do(c, s, t, a), l, signals, log)
  {
    hide Inv, CanSend, CanRecv, CanFree, CanReg, CanTimer, TimerInv, Quiet, Starts;
    TimersOf(c, s);
    if a.Snd? {
      SendStepQuiet(c, s, t, a.s, l, signals, log);
    } else if a.Tmr? {
      TimerStepQuiet(c, s, t, a.t, l, signals, log);
    } else {
      OtherStepQuiet(c, s, t, a, l, signals, log);
    }
  }

  lemma Nothing(s: State, l: Label)
    ensures SilentFrom(s, l, |s.tm.signals|, |s.log|)
  {
  }

  /** No step of the run is a successful startTimer for label l. */
  ghost predicate NoStart(ss: seq<State>, steps: seq<Step>, l: Label)
    requires |ss| == |steps| + 1
  {
    forall j :: 0 <= j < |steps| ==> !Starts(ss[j], steps[j], l)
  }

  /**
   * While a label has no timer - after a successful cancelTimer, say - and the handler has not already dequeued an
   * expiry for it, no timer signal for it is sent, until startTimer succeeds for it again.
   */
  lemma {:induction false} SilentUntilRestart(c: Config, ss: seq<State>, steps: seq<Step>, l: Label, k: nat)
    requires Run(c, ss, steps) && Reachable(c, ss[0]) && k <= |steps|
    requires l !in ss[0].tm.table && NoneInHand(ss[0], l) && NoStart(ss, steps, l)
    ensures Quiet(ss[k], l, |ss[0].tm.signals|, |ss[0].log|)
  {
    hide Inv, Reachable, SilentFrom, Starts, NoneInHand;
    if k == 0 {
      Nothing(ss[0], l);
    } else {
      SilentUntilRestart(c, ss, steps, l, k - 1);
      ReachableInv(c, ss[0]);
      RunKeepsInv(c, ss, steps, k - 1);
      var step := steps[k - 1];
      assert Can(c, ss[k - 1], step.t, step.a) && ss[k - 1 + 1] == Do(c, ss[k - 1], step.t, step.a);
      assert !Starts(ss[k - 1], Step(step.t, step.a), l);
      hide Can, Do, Quiet;
      StepQuiet(c, ss[k - 1], step.t, step.a, l, |ss[0].tm.signals|, |ss[0].log|);
    }
  }
}

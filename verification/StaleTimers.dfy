/**
 * HandleSignals dequeues an expiry and only then takes the timer mutex. When the timer is cancelled in between,
 * timerEvent is called for a destroyed Timer. This module says exactly when, and what then goes wrong.
 */
module StaleTimers {
  import opened Messages
  import opened Receiver
  import opened Threads
  import opened System
  import opened TimerTable
  import opened Broadcast
  import opened Invariant
  import opened TimerRuns
  import opened Scenarios

  // Exactly when the handler comes too late -----------------------------------------------------------

  /** The step is a call of cancelTimer for label l, inside the mutex. */
  ghost predicate Cancels(s: State, step: Step, l: Label) {
    && step.a == Tmr(DoTimer) && step.t in s.pcs && s.pcs[step.t].Tim?
    && s.pcs[step.t].top.CancelTimer? && s.pcs[step.t].top.lab == l
  }

  lemma StepLiveIff(c: Config, s: State, t: Tid, a: Act, id: TimerId)
    requires TableOk(s.tm) && Can(c, s, t, a) && id < |s.tm.started|
    requires a != Tmr(HDoCancel)
    ensures id < |Do(c, s, t, a).tm.started| && Do(c, s, t, a).tm.started[id] == s.tm.started[id]
    ensures id in Do(c, s, t, a).tm.objs <==> id in s.tm.objs && !Cancels(s, Step(t, a), s.tm.started[id].lab)
  {
    if a.Tmr? {
      hide CanSend, CanRecv, CanFree, CanReg;
    } else if !a.Snd? {
      OthersLeaveTimers(c, s, t, a);
      hide Do, Can;
    }
  }

  lemma NoOtherHandler(c: Config, s: State, t: Tid)
    requires Inv(c, s) && c.handler in s.pcs && s.pcs[c.handler].Hand? && s.pcs[c.handler].hs.HWant?
    ensures TableOk(s.tm)
    ensures !Can(c, s, t, Tmr(HDoCancel))
  {
    hide Inv, AllFiringOk, OneShotOk, TableOk;
    TimersOf(c, s);
    ExclusionOf(c, s);
  }

  /** From position i to position n the handler waits for the mutex with timer id in its hand. */
  ghost predicate Waits(c: Config, ss: seq<State>, id: TimerId, i: nat, n: nat)
    requires n < |ss|
  {
    forall x :: i <= x <= n ==> c.handler in ss[x].pcs && ss[x].pcs[c.handler] == Hand(id, HWant)
  }

  /** While the handler waits for the mutex, the timer it dequeued stays alive if and only if nobody cancels its label. */
  lemma {:induction false} LiveIffNotCancelled(c: Config, ss: seq<State>, steps: seq<Step>, id: TimerId, i: nat, n: nat)
    requires Run(c, ss, steps) && Reachable(c, ss[0]) && i <= n <= |steps| && Waits(c, ss, id, i, n)
    requires id < |ss[i].tm.started| && id in ss[i].tm.objs
    ensures id < |ss[n].tm.started| && ss[n].tm.started[id] == ss[i].tm.started[id]
    ensures id in ss[n].tm.objs <==> forall j :: i <= j < n ==> !Cancels(ss[j], steps[j], ss[i].tm.started[id].lab)
  {
    hide Inv, Reachable, Cancels, Run;
    if n == i {
    } else {
      LiveIffNotCancelled(c, ss, steps, id, i, n - 1);
      LiveStep(c, ss, steps, id, n - 1);
    }
  }

  lemma LiveStep(c: Config, ss: seq<State>, steps: seq<Step>, id: TimerId, k: nat)
    requires Run(c, ss, steps) && Reachable(c, ss[0]) && k < |steps|
    requires c.handler in ss[k].pcs && ss[k].pcs[c.handler] == Hand(id, HWant) && id < |ss[k].tm.started|
    ensures id < |ss[k + 1].tm.started| && ss[k + 1].tm.started[id] == ss[k].tm.started[id]
    ensures id in ss[k + 1].tm.objs <==> id in ss[k].tm.objs && !Cancels(ss[k], steps[k], ss[k].tm.started[id].lab)
  {
    hide Inv, Reachable, Cancels, TableOk, Can, Do;
    ReachableInv(c, ss[0]);
    RunKeepsInv(c, ss, steps, k);
    var step := steps[k];
    assert Can(c, ss[k], step.t, step.a) && ss[k + 1] == Do(c, ss[k], step.t, step.a);
    NoOtherHandler(c, ss[k], step.t);
    StepLiveIff(c, ss[k], step.t, step.a, id);
    assert step == Step(step.t, step.a);
  }

  /** Step i dequeues an expiry of timer id, and the handler waits with it until step n. */
  ghost predicate DequeuedAt(c: Config, ss: seq<State>, steps: seq<Step>, id: TimerId, i: nat, n: nat)
    requires n <= |steps| < |ss|
  {
    i < n && steps[i].a == Tmr(Dequeue(id)) && Waits(c, ss, id, i + 1, n)
  }

  lemma WaitBegins(c: Config, s: State, t: Tid, a: Act, id: TimerId)
    requires Can(c, s, t, a) && Exclusion(s.pcs, c.handler)
    requires c.handler in Do(c, s, t, a).pcs && Do(c, s, t, a).pcs[c.handler] == Hand(id, HWant)
    ensures c.handler in s.pcs
    ensures s.pcs[c.handler] == Hand(id, HWant) || a == Tmr(Dequeue(id))
  {
    OneThreadMoves(c, s, t, a);
    hide Do;
    if t == c.handler {
      NextWait(c, s, t, a, id);
    }
  }

  lemma NextWait(c: Config, s: State, t: Tid, a: Act, id: TimerId)
    requires Can(c, s, t, a) && NextPc(c, s, t, a) == Hand(id, HWant)
    ensures s.pcs[t] == Hand(id, HWant) || a == Tmr(Dequeue(id))
  {
    if a.Snd? {
      hide CanRecv, CanFree, CanReg, CanTimer;
    } else if a.Tmr? {
      hide CanSend, CanRecv, CanFree, CanReg;
    } else {
      hide CanSend, CanTimer;
    }
  }

  lemma WaitBeginsInRun(c: Config, ss: seq<State>, steps: seq<Step>, id: TimerId, n: nat)
    requires Run(c, ss, steps) && Init(c, ss[0]) && n < |steps| && Waits(c, ss, id, n + 1, n + 1)
    ensures Waits(c, ss, id, n, n) || steps[n].a == Tmr(Dequeue(id))
  {
    ExclusionInRun(c, ss, steps, n);
    assert Can(c, ss[n], steps[n].t, steps[n].a) && ss[n + 1] == Do(c, ss[n], steps[n].t, steps[n].a);
    hide Init, Can, Do, Exclusion;
    WaitBegins(c, ss[n], steps[n].t, steps[n].a, id);
  }

  lemma NotWaitingFirst(c: Config, ss: seq<State>, id: TimerId)
    requires 0 < |ss| && Init(c, ss[0])
    ensures !Waits(c, ss, id, 0, 0)
  {
  }

  /** A waiting handler has dequeued what it waits with. */
  lemma {:induction false} SomeDequeue(c: Config, ss: seq<State>, steps: seq<Step>, id: TimerId, n: nat) returns (i: nat)
    requires Run(c, ss, steps) && Init(c, ss[0]) && n <= |steps| && Waits(c, ss, id, n, n)
    ensures DequeuedAt(c, ss, steps, id, i, n)
  {
    NotWaitingFirst(c, ss, id);
    hide Run, Init;
    if n > 0 && steps[n - 1].a == Tmr(Dequeue(id)) {
      i := n - 1;
    } else if n > 0 {
      WaitBeginsInRun(c, ss, steps, id, n - 1);
      i := SomeDequeue(c, ss, steps, id, n - 1);
    }
  }

  lemma ExclusionInRun(c: Config, ss: seq<State>, steps: seq<Step>, n: nat)
    requires Run(c, ss, steps) && Init(c, ss[0]) && n <= |steps|
    ensures Exclusion(ss[n].pcs, c.handler) && TimerInv(c, ss[n]) && Reachable(c, ss[0])
  {
    InitReachable(c, ss[0]);
    InitInv(c, ss[0]);
    hide Reachable, Inv, Init, Exclusion, TimerInv;
    RunKeepsInv(c, ss, steps, n);
    ExclusionOf(c, ss[n]);
    TimersOf(c, ss[n]);
  }

  lemma DequeuesLive(c: Config, s: State, t: Tid, id: TimerId)
    requires TimerInv(c, s) && Can(c, s, t, Tmr(Dequeue(id)))
    ensures var tm' := Do(c, s, t, Tmr(Dequeue(id))).tm;
            id in tm'.objs && id < |tm'.started| && tm'.started == s.tm.started
  {
    hide AllFiringOk, OneShotOk;
  }

  /** The timer a handler waits with is dead if and only if its label was cancelled since it was dequeued. */
  lemma DeadIff(c: Config, ss: seq<State>, steps: seq<Step>, id: TimerId, i: nat, n: nat)
    requires Run(c, ss, steps) && Init(c, ss[0]) && n <= |steps| && DequeuedAt(c, ss, steps, id, i, n)
    ensures id < |ss[i].tm.started|
    ensures id !in ss[n].tm.objs <==> exists j :: i < j < n && Cancels(ss[j], steps[j], ss[i].tm.started[id].lab)
  {
    ExclusionInRun(c, ss, steps, i);
    assert Can(c, ss[i], steps[i].t, steps[i].a) && ss[i + 1] == Do(c, ss[i], steps[i].t, steps[i].a);
    DequeuesLive(c, ss[i], steps[i].t, id);
    hide Init, Reachable, Can, Do, TimerInv, Exclusion, Cancels;
    LiveIffNotCancelled(c, ss, steps, id, i + 1, n);
  }

  /**
   * Step n is the handler taking the mutex for an expiry of timer id that it dequeued at step i, and step j, between
   * the two, cancels id's label.
   */
  ghost predicate Overtaken(c: Config, ss: seq<State>, steps: seq<Step>, id: TimerId, i: nat, j: nat, n: nat)
    requires n < |steps| < |ss|
  {
    && DequeuedAt(c, ss, steps, id, i, n) && steps[n] == Step(c.handler, Tmr(HLock))
    && i < j < n && id < |ss[i].tm.started| && Cancels(ss[j], steps[j], ss[i].tm.started[id].lab)
  }

  /** Step n is a lock for a timer that was cancelled meanwhile. */
  ghost predicate LateAt(c: Config, ss: seq<State>, steps: seq<Step>, n: nat)
    requires n < |steps| < |ss|
  {
    exists id, i, j :: Overtaken(c, ss, steps, id, i, j, n)
  }

  ghost predicate SomeLate(c: Config, ss: seq<State>, steps: seq<Step>, k: nat)
    requires k <= |steps| < |ss|
  {
    exists n: nat :: n < k && LateAt(c, ss, steps, n)
  }

  lemma StepStale(c: Config, s: State, t: Tid, a: Act)
    requires Can(c, s, t, a) && Exclusion(s.pcs, c.handler)
    ensures Do(c, s, t, a).tm.stale <==>
            s.tm.stale || (a == Tmr(HLock) && s.pcs[t].id !in s.tm.objs)
    ensures a == Tmr(HLock) ==> t == c.handler && s.pcs[t] == Hand(s.pcs[t].id, HWant)
  {
    if a.Tmr? {
      hide CanSend, CanRecv, CanFree, CanReg;
    } else if !a.Snd? {
      OthersLeaveTimers(c, s, t, a);
      hide Do, Can;
    }
  }

  /** What the handler's lock at step n finds. */
  lemma LockFinds(c: Config, ss: seq<State>, steps: seq<Step>, n: nat)
    requires Run(c, ss, steps) && Init(c, ss[0]) && n < |steps| && steps[n] == Step(c.handler, Tmr(HLock))
    requires c.handler in ss[n].pcs && ss[n].pcs[c.handler].Hand? && ss[n].pcs[c.handler].hs.HWant?
    ensures ss[n].pcs[c.handler].id !in ss[n].tm.objs <==> LateAt(c, ss, steps, n)
  {
    var id := ss[n].pcs[c.handler].id;
    assert Waits(c, ss, id, n, n);
    var i := SomeDequeue(c, ss, steps, id, n);
    DeadIff(c, ss, steps, id, i, n);
    hide Run, Init, Cancels;
    if id !in ss[n].tm.objs {
      var j :| i < j < n && Cancels(ss[j], steps[j], ss[i].tm.started[id].lab);
      assert Overtaken(c, ss, steps, id, i, j, n);
    }
    if id', i', j: nat :| Overtaken(c, ss, steps, id', i', j, n) {
      OvertakenDead(c, ss, steps, id', i', j, n);
    }
  }

  lemma OvertakenDead(c: Config, ss: seq<State>, steps: seq<Step>, id: TimerId, i: nat, j: nat, n: nat)
    requires Run(c, ss, steps) && Init(c, ss[0]) && n < |steps| && Overtaken(c, ss, steps, id, i, j, n)
    ensures ss[n].pcs[c.handler].id == id && id !in ss[n].tm.objs
  {
    DeadIff(c, ss, steps, id, i, n);
    hide Run, Init, Cancels;
  }

  lemma StaleNext(c: Config, ss: seq<State>, steps: seq<Step>, k: nat)
    requires Run(c, ss, steps) && Init(c, ss[0]) && k < |steps|
    ensures ss[k + 1].tm.stale <==>
            ss[k].tm.stale || LateAt(c, ss, steps, k)
  {
    ExclusionInRun(c, ss, steps, k);
    assert Can(c, ss[k], steps[k].t, steps[k].a) && ss[k + 1] == Do(c, ss[k], steps[k].t, steps[k].a);
    StepStale(c, ss[k], steps[k].t, steps[k].a);
    hide Can, Do, Exclusion, TimerInv, Reachable, Init, DequeuedAt, Cancels;
    if steps[k].a == Tmr(HLock) {
      LockFinds(c, ss, steps, k);
    }
  }

  /**
   * timerEvent has been called for a destroyed Timer if and only if some cancelTimer for a label came between the
   * dequeuing of an expiry of that label's timer and the handler's taking the mutex for it.
   */
  lemma {:induction false} StaleIff(c: Config, ss: seq<State>, steps: seq<Step>, k: nat)
    requires Run(c, ss, steps) && Init(c, ss[0]) && k <= |steps|
    ensures ss[k].tm.stale <==> SomeLate(c, ss, steps, k)
  {
    hide LateAt, SomeLate, Init;
    if k == 0 {
      NotStaleFirst(c, ss, steps);
    } else {
      StaleIff(c, ss, steps, k - 1);
      StaleNext(c, ss, steps, k - 1);
      OvertakenNext(c, ss, steps, k - 1);
    }
  }

  lemma NotStaleFirst(c: Config, ss: seq<State>, steps: seq<Step>)
    requires |steps| < |ss| && Init(c, ss[0])
    ensures !ss[0].tm.stale && !SomeLate(c, ss, steps, 0)
  {
  }

  lemma OvertakenNext(c: Config, ss: seq<State>, steps: seq<Step>, k: nat)
    requires k < |steps| < |ss|
    ensures SomeLate(c, ss, steps, k + 1) <==>
            SomeLate(c, ss, steps, k) || LateAt(c, ss, steps, k)
  {
    hide LateAt;
  }

  /** When clients do not cancel timers, timerEvent is only ever called for live ones. */
  lemma NeverStale(c: Config, ss: seq<State>, steps: seq<Step>, k: nat)
    requires Run(c, ss, steps) && Init(c, ss[0]) && k <= |steps|
    requires forall j, l :: 0 <= j < k ==> !Cancels(ss[j], steps[j], l)
    ensures !ss[k].tm.stale
  {
    StaleIff(c, ss, steps, k);
    hide Run, Init, Cancels, DequeuedAt;
  }

  // Exactly when a cancelled label stays silent -------------------------------------------------------

  /** Every run from s without a new start of l is free of timer signals for l. */
  ghost predicate StaysSilent(c: Config, s: State, l: Label) {
    forall ss, steps {:trigger Run(c, ss, steps)} ::
      Run(c, ss, steps) && ss[0] == s && NoStart(ss, steps, l) ==>
        SilentFrom(ss[|steps|], l, |s.tm.signals|, |s.log|)
  }

  lemma FireSignals(c: Config, s: State, t: Tid, l: Label)
    requires t in s.pcs && s.pcs[t].Hand? && s.pcs[t].hs.HFire? && s.pcs[t].id < |s.tm.started|
    requires s.tm.started[s.pcs[t].id].lab == l
    ensures Can(c, s, t, Tmr(HSignal))
    ensures Do(c, s, t, Tmr(HSignal)).tm == s.tm.(signals := s.tm.signals + [s.pcs[t].id])
  {
  }

  lemma SignalHeard(s: State, id: TimerId, l: Label, signals: nat, log: nat)
    requires id < |s.tm.started| && s.tm.started[id].lab == l && signals < |s.tm.signals|
    requires s.tm.signals[|s.tm.signals| - 1] == id
    ensures !SilentFrom(s, l, signals, log)
  {
  }

  /** A handler in timerEvent signals at its next step. */
  lemma FireBreaksSilence(c: Config, s: State, l: Label)
    requires c.handler in s.pcs && s.pcs[c.handler].Hand? && s.pcs[c.handler].hs.HFire?
    requires s.pcs[c.handler].id < |s.tm.started| && s.tm.started[s.pcs[c.handler].id].lab == l
    ensures !StaysSilent(c, s, l)
  {
    FireSignals(c, s, c.handler, l);
    var s1 := Do(c, s, c.handler, Tmr(HSignal));
    var ss, steps := [s, s1], [Step(c.handler, Tmr(HSignal))];
    hide Can, Do;
    assert Run(c, ss, steps) && NoStart(ss, steps, l);
    SignalHeard(s1, s.pcs[c.handler].id, l, |s.tm.signals|, |s.log|);
  }

  lemma LockMoves(c: Config, s: State)
    requires c.handler in s.pcs && s.pcs[c.handler].Hand? && s.pcs[c.handler].hs.HWant? && TimerFree(s.pcs, c.handler)
    ensures Can(c, s, c.handler, Tmr(HLock))
    ensures var s1 := Do(c, s, c.handler, Tmr(HLock));
            && s1.pcs == s.pcs[c.handler := Hand(s.pcs[c.handler].id, HFire)] && s1.log == s.log
            && s1.tm.started == s.tm.started && s1.tm.signals == s.tm.signals
  {
  }

  /** A handler that waits with an expiry for l, and that may take the mutex, signals two steps later. */
  lemma WaitBreaksSilence(c: Config, s: State, l: Label)
    requires c.handler in s.pcs && s.pcs[c.handler].Hand? && s.pcs[c.handler].hs.HWant? && TimerFree(s.pcs, c.handler)
    requires s.pcs[c.handler].id < |s.tm.started| && s.tm.started[s.pcs[c.handler].id].lab == l
    ensures !StaysSilent(c, s, l)
  {
    LockMoves(c, s);
    var s1 := Do(c, s, c.handler, Tmr(HLock));
    FireSignals(c, s1, c.handler, l);
    var s2 := Do(c, s1, c.handler, Tmr(HSignal));
    var ss, steps := [s, s1, s2], [Step(c.handler, Tmr(HLock)), Step(c.handler, Tmr(HSignal))];
    hide Can, Do;
    assert Run(c, ss, steps) && NoStart(ss, steps, l);
    SignalHeard(s2, s.pcs[c.handler].id, l, |s.tm.signals|, |s.log|);
  }

  lemma OnlyHandlerFires(c: Config, s: State, l: Label)
    requires Exclusion(s.pcs, c.handler) && c.handler in s.pcs && !InHand(s.pcs[c.handler], s.tm, l)
    ensures NoneInHand(s, l)
  {
  }

  /**
   * A label without a timer, nobody holding the timer mutex and no signal on its way: no further timer signal for the
   * label comes, in any run without a new start, if and only if the handler has not already dequeued an expiry for it.
   */
  lemma SilentIff(c: Config, s: State, l: Label)
    requires Reachable(c, s) && c.handler in s.pcs && l !in s.tm.table
    requires TimerFree(s.pcs, c.handler) && !InFire(s.pcs[c.handler])
    ensures StaysSilent(c, s, l) <==> !InHand(s.pcs[c.handler], s.tm, l)
  {
    if InHand(s.pcs[c.handler], s.tm, l) {
      hide Reachable, StaysSilent, TimerFree;
      if s.pcs[c.handler].hs.HWant? {
        WaitBreaksSilence(c, s, l);
      } else {
        FireBreaksSilence(c, s, l);
      }
    } else {
      SilentWhenNoneInHand(c, s, l);
    }
  }

  lemma SilentWhenNoneInHand(c: Config, s: State, l: Label)
    requires Reachable(c, s) && c.handler in s.pcs && l !in s.tm.table && !InHand(s.pcs[c.handler], s.tm, l)
    ensures StaysSilent(c, s, l)
  {
    hide Reachable, Inv, InHand, Exclusion, SilentFrom, NoneInHand, NoStart;
    ReachableInv(c, s);
    ExclusionOf(c, s);
    OnlyHandlerFires(c, s, l);
    forall ss, steps {:trigger Run(c, ss, steps)} | Run(c, ss, steps) && ss[0] == s && NoStart(ss, steps, l)
      ensures SilentFrom(ss[|steps|], l, |s.tm.signals|, |s.log|)
    {
      SilentUntilRestart(c, ss, steps, l, |steps|);
    }
  }

  // Such a run -----------------------------------------------------------------------------------------

  predicate TimerMutexUnused(s: State) {
    forall u :: u in s.pcs ==> TimerDepth(s.pcs[u]) == 0
  }

  lemma TimerEnters(c: Config, s: State, t: Tid, top: TimerOp) returns (s': State)
    requires Reachable(c, s) && t in s.pcs && s.pcs[t] == Idle && TimerMutexUnused(s)
    ensures Reachable(c, s') && s' == s.(pcs := s.pcs[t := Tim(top, DoT)])
  {
    hide Reachable;
    var s1 := Go(c, s, t, Tmr(StartTim(top)));
    assert s1 == s.(pcs := s.pcs[t := Tim(top, WantT)]);
    s' := Go(c, s1, t, Tmr(LockT));
    assert s'.pcs == s.pcs[t := Tim(top, DoT)];
  }

  /** An uninterrupted call of startTimer or cancelTimer changes the table in one piece and nothing else. */
  lemma TimerCall(c: Config, s: State, t: Tid, top: TimerOp) returns (s': State)
    requires Reachable(c, s) && t in s.pcs && s.pcs[t] == Idle && TimerMutexUnused(s)
    ensures Reachable(c, s')
    ensures s' == s.(tm := if top.StartTimer? then StartIn(s.tm, top.lab, top.oneShot) else CancelIn(s.tm, top.lab))
  {
    hide Reachable, StartIn, CancelIn;
    var s1 := TimerEnters(c, s, t, top);
    hide TimerMutexUnused;
    var s2 := Go(c, s1, t, Tmr(DoTimer));
    assert s2.pcs == s.pcs[t := Tim(top, LeaveT)];
    s' := Go(c, s2, t, Tmr(UnlockT));
    assert s'.pcs == s.pcs;
  }

  /** A one-shot is started and expires, and the handler dequeues the expiry. */
  lemma HandlerDequeues(c: Config, s: State, t: Tid, l: Label) returns (s': State)
    requires Reachable(c, s) && c.handler in s.pcs && t in s.pcs && t != c.handler && l !in s.tm.table
    requires s.pcs[t] == Idle && s.pcs[c.handler] == Idle && TimerMutexUnused(s)
    ensures var id := |s.tm.started|;
            && Reachable(c, s') && s' == s.(pcs := s.pcs[c.handler := Hand(id, HWant)], tm := s'.tm)
            && s'.tm.started == s.tm.started + [TimerInfo(l, true)] && s'.tm.table == s.tm.table[l := id]
            && s'.tm.objs == s.tm.objs + {id} && s'.tm.signals == s.tm.signals
  {
    hide Reachable;
    var s1 := TimerCall(c, s, t, StartTimer(l, true));
    var id := |s.tm.started|;
    var s2 := Go(c, s1, c.handler, Tmr(Expire(id)));
    assert s2.pcs == s.pcs;
    s' := Go(c, s2, c.handler, Tmr(Dequeue(id)));
  }

  /** The handler has dequeued an expiry, and a client has then cancelled the timer. */
  lemma CancelledInHand(c: Config, s: State, t: Tid, l: Label) returns (s': State)
    requires Init(c, s) && c.handler in s.pcs && t in s.pcs && t != c.handler
    ensures Reachable(c, s') && s' == s.(pcs := s.pcs[c.handler := Hand(0, HWant)], tm := s'.tm)
    ensures s'.tm.started == [TimerInfo(l, true)] && s'.tm.table == map[] && s'.tm.objs == {}
    ensures s'.tm.signals == []
  {
    hide Reachable, Init;
    InitFacts(c, s);
    assert TimerMutexUnused(s);
    var s1 := HandlerDequeues(c, s, t, l);
    s' := TimerCall(c, s1, t, CancelTimer(l));
  }

  /**
   * From the initial state with a handler and one more thread: start a one-shot, let it expire, let the handler
   * dequeue it, cancel it. The label has no timer, and a signal for it can still come.
   */
  lemma HandlerCanBeStale(c: Config, s: State, t: Tid, l: Label)
    requires Init(c, s) && c.handler in s.pcs && t in s.pcs && t != c.handler
    ensures exists s' :: Reachable(c, s') && l !in s'.tm.table && TimerFree(s'.pcs, c.handler) && !StaysSilent(c, s', l)
  {
    var s' := CancelledInHand(c, s, t, l);
    assert TimerFree(s'.pcs, c.handler);
    hide Reachable, StaysSilent, Init;
    WaitBreaksSilence(c, s', l);
  }

  /** The handler fires the dead timer while a new one for the label is running, and sends its signal. */
  lemma FireDead(c: Config, s: State, l: Label) returns (s': State)
    requires Reachable(c, s) && c.handler in s.pcs && s.pcs[c.handler] == Hand(0, HWant)
    requires (forall x :: x in s.pcs && x != c.handler ==> s.pcs[x] == Idle)
    requires 0 < |s.tm.started| && s.tm.started[0].lab == l
    requires l in s.slots && forall j :: 0 <= j < |s.slots[l]| ==> s.slots[l][j].None?
    ensures Reachable(c, s') && s'.pcs == s.pcs[c.handler := Hand(0, HAfter)]
    ensures s'.tm.started == s.tm.started && s'.tm.table == s.tm.table && s'.tm.objs == s.tm.objs
    ensures s'.tm.signals == s.tm.signals + [0]
  {
    hide Reachable;
    LockMoves(c, s);
    var s1 := Go(c, s, c.handler, Tmr(HLock));
    assert s1.slots == s.slots && s1.tm == s.tm.(stale := s1.tm.stale);
    s' := FireNow(c, s1, l);
    assert s'.pcs == s.pcs[c.handler := Hand(0, HAfter)];
  }

  lemma FireNow(c: Config, s: State, l: Label) returns (s': State)
    requires Reachable(c, s) && c.handler in s.pcs && s.pcs[c.handler] == Hand(0, HFire)
    requires (forall x :: x in s.pcs && x != c.handler ==> s.pcs[x] == Idle)
    requires 0 < |s.tm.started| && s.tm.started[0].lab == l
    requires l in s.slots && forall j :: 0 <= j < |s.slots[l]| ==> s.slots[l][j].None?
    ensures Reachable(c, s') && s'.pcs == s.pcs[c.handler := Hand(0, HAfter)]
    ensures s'.tm == s.tm.(signals := s.tm.signals + [0])
  {
    hide Reachable;
    var op := SendOp(l, None, Fired(0));
    var s1 := Go(c, s, c.handler, Tmr(HSignal));
    assert s1 == s.(pcs := s.pcs[c.handler := SWant(op)], tm := s1.tm);
    var s2 := Enter(c, s1, c.handler, op);
    s' := SkipRest(c, s2, c.handler, op, 0, true);
    assert s'.pcs == s.pcs[c.handler := Hand(0, HAfter)];
  }

  /** Back in timerEvent, the handler cancels by label. */
  lemma CancelsByLabel(c: Config, s: State, l: Label) returns (s': State)
    requires Reachable(c, s) && c.handler in s.pcs && s.pcs[c.handler] == Hand(0, HAfter) && TimerFree(s.pcs, c.handler)
    requires 0 < |s.tm.started| && s.tm.started[0] == TimerInfo(l, true)
    ensures Reachable(c, s') && s'.tm == s.tm && c.handler in s'.pcs && s'.pcs[c.handler] == Hand(0, HCancel)
    ensures Can(c, s', c.handler, Tmr(HDoCancel)) && l !in Do(c, s', c.handler, Tmr(HDoCancel)).tm.table
  {
    hide Reachable;
    s' := Go(c, s, c.handler, Tmr(HRelock));
  }

  /** A client cancels and restarts while the handler waits with the old timer. */
  lemma RestartedInHand(c: Config, s: State, t: Tid, l: Label) returns (s': State)
    requires Init(c, s) && c.handler in s.pcs && t in s.pcs && t != c.handler
    ensures Reachable(c, s') && s' == s.(pcs := s.pcs[c.handler := Hand(0, HWant)], tm := s'.tm)
    ensures s'.tm.started == [TimerInfo(l, true), TimerInfo(l, false)] && s'.tm.table == map[l := 1]
    ensures s'.tm.objs == {1} && s'.tm.signals == []
  {
    var s1 := CancelledInHand(c, s, t, l);
    assert TimerMutexUnused(s1);
    hide Reachable, Init;
    s' := TimerCall(c, s1, t, StartTimer(l, false));
  }

  /**
   * And it can do worse: a timer started for the label since then, which has not fired, is destroyed by the nested
   * cancelTimer.
   */
  lemma RestartedTimerLost(c: Config, s: State, t: Tid, l: Label)
    requires Init(c, s) && c.handler in s.pcs && t in s.pcs && t != c.handler
    ensures exists s' :: Reachable(c, s') && Can(c, s', c.handler, Tmr(HDoCancel))
                         && s'.tm.table == map[l := 1] && s'.tm.objs == {1}
                         && s'.pcs[c.handler].id == 0 && s'.tm.signals == [0]
                         && l !in Do(c, s', c.handler, Tmr(HDoCancel)).tm.table
  {
    hide Reachable, Init, Can, Do;
    InitFacts(c, s);
    var s1 := RestartedInHand(c, s, t, l);
    var s2 := FireDead(c, s1, l);
    var s3 := CancelsByLabel(c, s2, l);
  }
}

/** The timer table, and the thread that turns expiries into signals. */
module TimerTable {
  import opened Messages
  import opened Threads
  import opened System
  import opened Locks

  /** A non-null slot holds a live timer with its label, and every live timer is in its label's slot. */
  ghost predicate TableOk(tm: Timers) {
    && (forall l {:trigger tm.table[l]} :: l in tm.table ==>
          tm.table[l] in tm.objs && tm.table[l] < |tm.started| && tm.started[tm.table[l]].lab == l)
    && (forall id {:trigger id in tm.objs} :: id in tm.objs ==>
          id < |tm.started| && tm.started[id].lab in tm.table && tm.table[tm.started[id].lab] == id)
    && tm.armed <= tm.objs && tm.pending <= tm.objs
    && (forall id :: id in tm.signals ==> id < |tm.started|)
  }

  /**
   * From the moment it holds the timer mutex, the handler works on the timer it dequeued until it cancels it, and that
   * timer is alive unless the handler has ever come too late. When it leaves timerEvent for a one-shot, the label is
   * free.
   */
  ghost predicate FiringOk(pc: PC, tm: Timers) {
    && (pc.Hand? ==> pc.id < |tm.started|)
    && (pc.Hand? && (pc.hs.HFire? || pc.hs.HAfter? || pc.hs.HCancel?) && !tm.stale ==> pc.id in tm.objs)
    && (pc.Hand? && pc.hs.HCancel? ==> tm.started[pc.id].oneShot)
    && (pc.Hand? && (pc.hs.HCancelled? || pc.hs.HLeave?) && tm.started[pc.id].oneShot ==>
          tm.started[pc.id].lab !in tm.table)
    && (InFire(pc) ==>
          && pc.op.origin.id < |tm.started| && (!tm.stale ==> pc.op.origin.id in tm.objs)
          && pc.op.lab == tm.started[pc.op.origin.id].lab && pc.op.data.None?)
  }

  ghost predicate AllFiringOk(pcs: map<Tid, PC>, tm: Timers) {
    forall t {:trigger pcs[t]} :: t in pcs ==> FiringOk(pcs[t], tm)
  }

  /** The handler has dequeued timer id and not yet called SendSignal for it. */
  predicate Dequeued(pc: PC, id: TimerId) {
    pc.Hand? && pc.id == id && (pc.hs.HWant? || pc.hs.HFire?)
  }

  function HandlerPc(pcs: map<Tid, PC>, handler: Tid): PC {
    if handler in pcs then pcs[handler] else Idle
  }

  /** Signals sent for a timer, and those its expiry may still cause. */
  ghost function Budget(tm: Timers, pc: PC, id: TimerId): nat {
    multiset(tm.signals)[id] + One(id in tm.armed) + One(id in tm.pending) + One(Dequeued(pc, id))
  }

  ghost predicate OneShotOk(tm: Timers, pc: PC) {
    forall id {:trigger tm.started[id]} :: 0 <= id < |tm.started| && tm.started[id].oneShot ==> Budget(tm, pc, id) <= 1
  }

  /** The handler has dequeued timer id and not yet gone past the end of timerEvent for it. */
  predicate AtHand(pc: PC, id: TimerId) {
    || (pc.Hand? && pc.id == id && !pc.hs.HCancelled? && !pc.hs.HLeave?)
    || (InFire(pc) && pc.op.origin.id == id)
  }

  /** A live timer runs: a periodic one is armed, and a one-shot is armed, or has expired, or is at hand. */
  ghost predicate RunsOk(tm: Timers, pc: PC, id: TimerId) {
    id in tm.objs && id < |tm.started| ==>
      if tm.started[id].oneShot then One(id in tm.armed) + One(id in tm.pending) + One(AtHand(pc, id)) == 1
      else id in tm.armed
  }

  ghost predicate AllRunOk(tm: Timers, pc: PC) {
    forall id {:trigger id in tm.objs} :: id in tm.objs ==> RunsOk(tm, pc, id)
  }

  ghost predicate TimerInv(c: Config, s: State) {
    && TableOk(s.tm)
    && AllFiringOk(s.pcs, s.tm)
    && OneShotOk(s.tm, HandlerPc(s.pcs, c.handler))
    && AllRunOk(s.tm, HandlerPc(s.pcs, c.handler))
  }

  lemma InitTimers(c: Config, s: State)
    requires Init(c, s)
    ensures TimerInv(c, s)
  {
  }

  // The table ---------------------------------------------------------------------------------------

  lemma StartKeepsTable(tm: Timers, l: Label, oneShot: bool)
    requires TableOk(tm)
    ensures TableOk(StartIn(tm, l, oneShot))
    ensures l in StartIn(tm, l, oneShot).table
    ensures l !in tm.table ==>
              var tm' := StartIn(tm, l, oneShot);
              var id := tm'.table[l];
              && id !in tm.objs && id < |tm'.started| && tm'.started[id] == TimerInfo(l, oneShot)
              && id in tm'.objs && id in tm'.armed && id !in tm'.pending
  {
  }

  /** cancelTimer removes exactly the timer in the label's slot. */
  lemma CancelRemoves(tm: Timers, l: Label)
    requires TableOk(tm)
    ensures TableOk(CancelIn(tm, l))
    ensures l !in CancelIn(tm, l).table
    ensures CancelIn(tm, l).objs == tm.objs - (set id | id in tm.objs && tm.started[id].lab == l)
    ensures forall k: Label :: k != l && k in tm.table ==>
              k in CancelIn(tm, l).table && CancelIn(tm, l).table[k] == tm.table[k]
  {
    if l in tm.table {
      assert forall id :: id in tm.objs && tm.started[id].lab == l ==> id == tm.table[l];
    }
  }

  lemma TimersKeepTable(c: Config, s: State, t: Tid, a: TimerAct)
    requires t in s.pcs && CanTimer(c, s, t, s.pcs[t], a) && TableOk(s.tm)
    ensures TableOk(NextTimers(c, s, t, s.pcs[t], a))
  {
    var pc := s.pcs[t];
    if a.DoTimer? {
      StartKeepsTable(s.tm, pc.top.lab, pc.top.StartTimer? && pc.top.oneShot);
      CancelRemoves(s.tm, pc.top.lab);
    } else if a.HDoCancel? {
      CancelRemoves(s.tm, s.tm.started[pc.id].lab);
    }
  }

  /** Only a thread inside the timer mutex destroys a timer. */
  lemma LiveStays(c: Config, s: State, t: Tid, a: TimerAct)
    requires t in s.pcs && CanTimer(c, s, t, s.pcs[t], a)
    ensures s.tm.started <= NextTimers(c, s, t, s.pcs[t], a).started
    ensures TimerDepth(s.pcs[t]) == 0 ==>
              var tm' := NextTimers(c, s, t, s.pcs[t], a); s.tm.objs <= tm'.objs && s.tm.table == tm'.table
    ensures s.tm.stale ==> NextTimers(c, s, t, s.pcs[t], a).stale
  {
  }

  lemma OtherFiring(pc: PC, tm: Timers, tm': Timers)
    requires FiringOk(pc, tm) && tm.started <= tm'.started && (tm.stale ==> tm'.stale)
    requires TimerDepth(pc) > 0 ==> tm.objs <= tm'.objs && tm.table == tm'.table
    ensures FiringOk(pc, tm')
  {
  }

  lemma OwnFiring(c: Config, s: State, t: Tid, a: TimerAct)
    requires t in s.pcs && CanTimer(c, s, t, s.pcs[t], a) && TableOk(s.tm) && FiringOk(s.pcs[t], s.tm)
    ensures FiringOk(TimerPc(c, s, t, s.pcs[t], a), NextTimers(c, s, t, s.pcs[t], a))
  {
    assert a.Dequeue? ==> a.id in s.tm.objs;
  }

  lemma TimersKeepFiring(c: Config, s: State, t: Tid, a: TimerAct)
    requires t in s.pcs && CanTimer(c, s, t, s.pcs[t], a) && Exclusion(s.pcs, c.handler)
    requires TableOk(s.tm) && AllFiringOk(s.pcs, s.tm)
    ensures AllFiringOk(DoTimers(c, s, t, s.pcs[t], a).pcs, NextTimers(c, s, t, s.pcs[t], a))
  {
    var tm' := NextTimers(c, s, t, s.pcs[t], a);
    var pcs' := s.pcs[t := TimerPc(c, s, t, s.pcs[t], a)];
    assert FiringOk(s.pcs[t], s.tm);
    hide TableOk;
    OwnFiring(c, s, t, a);
    LiveStays(c, s, t, a);
    forall u: Tid {:trigger pcs'[u]} | u in pcs' && u != t
      ensures FiringOk(pcs'[u], tm')
    {
      assert FiringOk(s.pcs[u], s.tm);
      if a.Expire? {
        OtherFiring(s.pcs[u], s.tm, tm');
      } else {
        assert TimerDepth(s.pcs[u]) > 0 && TimerDepth(s.pcs[t]) > 0 ==> u == t;
        OtherFiring(s.pcs[u], s.tm, tm');
      }
    }
  }

  // One-shot timers -----------------------------------------------------------------------------------

  lemma OneMoreSignal(signals: seq<TimerId>, x: TimerId, id: TimerId)
    ensures multiset(signals + [x])[id] == multiset(signals)[id] + One(x == id)
  {
    assert multiset(signals + [x]) == multiset(signals) + multiset{x};
  }

  /** The ticket of a timer passes from armed to pending to the handler to the signals, or is torn up. */
  lemma ExpireBudget(tm: Timers, pc: PC, x: TimerId, id: TimerId)
    requires x in tm.armed && x < |tm.started| && id < |tm.started| && tm.started[id].oneShot && Budget(tm, pc, id) <= 1
    ensures Budget(tm.(pending := tm.pending + {x}, armed := if tm.started[x].oneShot then tm.armed - {x} else tm.armed),
                   pc, id) <= 1
  {
  }

  lemma DequeueBudget(tm: Timers, pc: PC, x: TimerId, id: TimerId)
    requires x in tm.pending && Budget(tm, pc, id) <= 1
    ensures Budget(tm.(pending := tm.pending - {x}), Hand(x, HWant), id) <= 1
  {
  }

  lemma SignalBudget(tm: Timers, x: TimerId, next: PC, id: TimerId)
    requires Budget(tm, Hand(x, HFire), id) <= 1 && !next.Hand?
    ensures Budget(tm.(signals := tm.signals + [x]), next, id) <= 1
  {
    OneMoreSignal(tm.signals, x, id);
  }

  lemma CancelBudget(tm: Timers, l: Label, pc: PC, next: PC, id: TimerId)
    requires Budget(tm, pc, id) <= 1 && (Dequeued(next, id) ==> Dequeued(pc, id))
    ensures Budget(CancelIn(tm, l), next, id) <= 1
  {
  }

  lemma StartBudget(tm: Timers, l: Label, oneShot: bool, pc: PC, next: PC, id: TimerId)
    requires Budget(tm, pc, id) <= 1 && (Dequeued(next, id) ==> Dequeued(pc, id)) && id < |tm.started|
    ensures Budget(StartIn(tm, l, oneShot), next, id) <= 1
  {
  }

  lemma QuietBudget(tm: Timers, tm': Timers, pc: PC, next: PC, id: TimerId)
    requires Budget(tm, pc, id) <= 1 && (Dequeued(next, id) ==> Dequeued(pc, id))
    requires tm'.signals == tm.signals && tm'.armed == tm.armed && tm'.pending == tm.pending
    ensures Budget(tm', next, id) <= 1
  {
  }

  predicate OnTable(a: TimerAct) {
    a.Expire? || a.Dequeue? || a.HSignal? || a.DoTimer? || a.HDoCancel?
  }

  /** The handler's program counter after a step; t is the handler unless the step is not its own. */
  lemma HandlerMoves(c: Config, s: State, t: Tid, a: TimerAct, id: TimerId)
    requires t in s.pcs && CanTimer(c, s, t, s.pcs[t], a) && (s.pcs[t].Hand? ==> t == c.handler)
    ensures var next := HandlerPc(DoTimers(c, s, t, s.pcs[t], a).pcs, c.handler);
            && (!a.Dequeue? ==> (Dequeued(next, id) ==> Dequeued(HandlerPc(s.pcs, c.handler), id)))
            && (a.Dequeue? ==> next == Hand(a.id, HWant))
            && (a.HSignal? ==> !next.Hand? && HandlerPc(s.pcs, c.handler) == Hand(s.pcs[t].id, HFire))
            && (a.Expire? ==> next == HandlerPc(s.pcs, c.handler))
    ensures !OnTable(a) ==>
              var tm' := NextTimers(c, s, t, s.pcs[t], a);
              tm'.signals == s.tm.signals && tm'.armed == s.tm.armed && tm'.pending == s.tm.pending
  {
  }

  lemma TimersKeepBudget(c: Config, s: State, t: Tid, a: TimerAct, id: TimerId)
    requires t in s.pcs && CanTimer(c, s, t, s.pcs[t], a)
    requires s.pcs[t].Hand? ==> t == c.handler
    requires id < |s.tm.started| && s.tm.started[id].oneShot
    requires Budget(s.tm, HandlerPc(s.pcs, c.handler), id) <= 1
    ensures Budget(NextTimers(c, s, t, s.pcs[t], a), HandlerPc(DoTimers(c, s, t, s.pcs[t], a).pcs, c.handler), id) <= 1
  {
    var pc, next := HandlerPc(s.pcs, c.handler), HandlerPc(DoTimers(c, s, t, s.pcs[t], a).pcs, c.handler);
    HandlerMoves(c, s, t, a, id);
    hide Budget, HandlerPc, Dequeued, DoTimers;
    if a.Expire? {
      ExpireBudget(s.tm, pc, a.id, id);
    } else if a.Dequeue? {
      DequeueBudget(s.tm, pc, a.id, id);
    } else if a.HSignal? {
      SignalBudget(s.tm, s.pcs[t].id, next, id);
    } else if a.HDoCancel? {
      CancelBudget(s.tm, s.tm.started[s.pcs[t].id].lab, pc, next, id);
    } else if a.DoTimer? {
      StartBudget(s.tm, s.pcs[t].top.lab, s.pcs[t].top.StartTimer? && s.pcs[t].top.oneShot, pc, next, id);
      CancelBudget(s.tm, s.pcs[t].top.lab, pc, next, id);
    } else {
      QuietBudget(s.tm, NextTimers(c, s, t, s.pcs[t], a), pc, next, id);
    }
  }

  lemma FreshBudget(c: Config, s: State, t: Tid, a: TimerAct, id: TimerId)
    requires t in s.pcs && CanTimer(c, s, t, s.pcs[t], a) && TableOk(s.tm) && AllFiringOk(s.pcs, s.tm)
    requires |s.tm.started| <= id < |NextTimers(c, s, t, s.pcs[t], a).started|
    ensures Budget(NextTimers(c, s, t, s.pcs[t], a), HandlerPc(DoTimers(c, s, t, s.pcs[t], a).pcs, c.handler), id) <= 1
  {
    assert id !in s.tm.objs && id !in s.tm.signals;
    assert multiset(s.tm.signals)[id] == 0;
    assert c.handler in s.pcs ==> FiringOk(s.pcs[c.handler], s.tm);
  }

  // Timers that run -------------------------------------------------------------------------------------

  lemma ExpireRuns(tm: Timers, pc: PC, x: TimerId, id: TimerId)
    requires x in tm.armed && x < |tm.started| && RunsOk(tm, pc, id) && (id == x ==> id in tm.objs)
    ensures RunsOk(tm.(pending := tm.pending + {x}, armed := if tm.started[x].oneShot then tm.armed - {x} else tm.armed),
                   pc, id)
  {
  }

  lemma DequeueRuns(tm: Timers, pc: PC, x: TimerId, id: TimerId)
    requires x in tm.pending && RunsOk(tm, pc, id) && !AtHand(pc, id)
    ensures RunsOk(tm.(pending := tm.pending - {x}), Hand(x, HWant), id)
  {
  }

  lemma StartRuns(tm: Timers, l: Label, oneShot: bool, pc: PC, next: PC, id: TimerId)
    requires TableOk(tm) && RunsOk(tm, pc, id) && !AtHand(next, |tm.started|)
    requires id in tm.objs ==> (AtHand(next, id) <==> AtHand(pc, id))
    ensures RunsOk(StartIn(tm, l, oneShot), next, id)
  {
  }

  lemma CancelRuns(tm: Timers, l: Label, pc: PC, next: PC, id: TimerId)
    requires RunsOk(tm, pc, id)
    requires id in CancelIn(tm, l).objs ==> (AtHand(next, id) <==> AtHand(pc, id))
    ensures RunsOk(CancelIn(tm, l), next, id)
  {
  }

  /** Which timer is at hand changes only when one is dequeued and when it has been dealt with. */
  lemma HandlerKeepsHand(c: Config, s: State, t: Tid, a: TimerAct, id: TimerId)
    requires t in s.pcs && CanTimer(c, s, t, s.pcs[t], a) && (s.pcs[t].Hand? ==> t == c.handler)
    ensures var pc, next := HandlerPc(s.pcs, c.handler), HandlerPc(DoTimers(c, s, t, s.pcs[t], a).pcs, c.handler);
            && (a.Dequeue? ==> next == Hand(a.id, HWant) && pc == Idle)
            && (a.Expire? ==> next == pc)
            && (a.HDoCancel? ==> pc == s.pcs[t])
            && (AtHand(next, id) ==> AtHand(pc, id) || a == Dequeue(id))
            && (AtHand(pc, id) ==> AtHand(next, id) || (a.HDoCancel? && id == s.pcs[t].id)
                                   || (a.HSkip? && id == s.pcs[t].id && !s.tm.started[id].oneShot))
    ensures !OnTable(a) || a.HSignal? ==>
              var tm' := NextTimers(c, s, t, s.pcs[t], a);
              && tm'.started == s.tm.started && tm'.objs == s.tm.objs
              && tm'.armed == s.tm.armed && tm'.pending == s.tm.pending
  {
  }

  lemma TimersKeepRuns(c: Config, s: State, t: Tid, a: TimerAct, id: TimerId)
    requires t in s.pcs && CanTimer(c, s, t, s.pcs[t], a) && (s.pcs[t].Hand? ==> t == c.handler)
    requires TableOk(s.tm) && FiringOk(HandlerPc(s.pcs, c.handler), s.tm)
    requires RunsOk(s.tm, HandlerPc(s.pcs, c.handler), id)
    ensures RunsOk(NextTimers(c, s, t, s.pcs[t], a), HandlerPc(DoTimers(c, s, t, s.pcs[t], a).pcs, c.handler), id)
  {
    var pc, next := HandlerPc(s.pcs, c.handler), HandlerPc(DoTimers(c, s, t, s.pcs[t], a).pcs, c.handler);
    HandlerKeepsHand(c, s, t, a, id);
    HandlerKeepsHand(c, s, t, a, |s.tm.started|);
    hide HandlerPc, DoTimers;
    if a.Expire? {
      ExpireRuns(s.tm, pc, a.id, id);
    } else if a.Dequeue? {
      DequeueRuns(s.tm, pc, a.id, id);
    } else if a.HDoCancel? {
      CancelRuns(s.tm, s.tm.started[s.pcs[t].id].lab, pc, next, id);
    } else if a.DoTimer? {
      if s.pcs[t].top.StartTimer? {
        StartRuns(s.tm, s.pcs[t].top.lab, s.pcs[t].top.oneShot, pc, next, id);
      } else {
        CancelRuns(s.tm, s.pcs[t].top.lab, pc, next, id);
      }
    }
  }

  lemma TimersKeepTimers(c: Config, s: State, t: Tid, a: TimerAct)
    requires t in s.pcs && CanTimer(c, s, t, s.pcs[t], a) && Exclusion(s.pcs, c.handler) && TimerInv(c, s)
    ensures TimerInv(c, DoTimers(c, s, t, s.pcs[t], a))
  {
    assert s.pcs[t].Hand? ==> t == c.handler;
    assert FiringOk(HandlerPc(s.pcs, c.handler), s.tm);
    hide TableOk, AllFiringOk, FiringOk, Exclusion, Budget, RunsOk;
    TimersKeepTable(c, s, t, a);
    TimersKeepFiring(c, s, t, a);
    LiveStays(c, s, t, a);
    var tm' := NextTimers(c, s, t, s.pcs[t], a);
    var pc' := HandlerPc(DoTimers(c, s, t, s.pcs[t], a).pcs, c.handler);
    forall id: TimerId {:trigger tm'.started[id]} | id < |tm'.started| && tm'.started[id].oneShot
      ensures Budget(tm', pc', id) <= 1
    {
      if id < |s.tm.started| {
        assert s.tm.started[id] == tm'.started[id];
        TimersKeepBudget(c, s, t, a, id);
      } else {
        FreshBudget(c, s, t, a, id);
      }
    }
    forall id: TimerId {:trigger id in tm'.objs} | id in tm'.objs
      ensures RunsOk(tm', pc', id)
    {
      NotLive(s.tm, HandlerPc(s.pcs, c.handler), id);
      TimersKeepRuns(c, s, t, a, id);
    }
  }

  lemma NotLive(tm: Timers, pc: PC, id: TimerId)
    ensures id !in tm.objs ==> RunsOk(tm, pc, id)
  {
  }

  /** The other families neither touch the timers nor pretend to be the handler. */
  lemma ElsewhereKeepsTimers(c: Config, s: State, t: Tid, next: PC, s': State)
    requires t in s.pcs && TimerInv(c, s) && s'.pcs == s.pcs[t := next] && s'.tm == s.tm
    requires FiringOk(next, s.tm) && (forall id :: !Dequeued(next, id))
    requires forall id :: AtHand(next, id) <==> AtHand(s.pcs[t], id)
    ensures TimerInv(c, s')
  {
    forall id: TimerId {:trigger id in s.tm.objs} | id in s.tm.objs
      ensures RunsOk(s.tm, HandlerPc(s'.pcs, c.handler), id)
    {
      assert RunsOk(s.tm, HandlerPc(s.pcs, c.handler), id);
    }
    forall id: TimerId {:trigger s.tm.started[id]} | id < |s.tm.started| && s.tm.started[id].oneShot
      ensures Budget(s.tm, HandlerPc(s'.pcs, c.handler), id) <= 1
    {
      assert Budget(s.tm, HandlerPc(s.pcs, c.handler), id) <= 1;
    }
  }

  lemma SendFiring(c: Config, s: State, t: Tid, a: SendAct)
    requires t in s.pcs && CanSend(c, s, s.pcs[t], a) && FiringOk(s.pcs[t], s.tm)
    ensures FiringOk(SendPc(c, s, s.pcs[t], a), s.tm) && forall id :: !Dequeued(SendPc(c, s, s.pcs[t], a), id)
    ensures forall id :: AtHand(SendPc(c, s, s.pcs[t], a), id) <==> AtHand(s.pcs[t], id)
  {
  }

  lemma QuietTimers(c: Config, s: State, t: Tid, next: PC, s': State)
    requires t in s.pcs && TimerInv(c, s) && s'.pcs == s.pcs[t := next] && s'.tm == s.tm
    requires (FiringOk(next, s.tm) && forall id :: !Dequeued(next, id)) || (!next.Hand? && !InFire(next))
    requires forall id :: AtHand(next, id) <==> AtHand(s.pcs[t], id)
    ensures TimerInv(c, s')
  {
    ElsewhereKeepsTimers(c, s, t, next, s');
  }

  lemma SendKeepsTimers(c: Config, s: State, t: Tid, a: SendAct)
    requires t in s.pcs && CanSend(c, s, s.pcs[t], a) && TimerInv(c, s)
    ensures TimerInv(c, DoSend(c, s, t, s.pcs[t], a))
  {
    assert FiringOk(s.pcs[t], s.tm);
    hide TimerInv;
    SendFiring(c, s, t, a);
    QuietTimers(c, s, t, SendPc(c, s, s.pcs[t], a), DoSend(c, s, t, s.pcs[t], a));
  }

  lemma RecvKeepsTimers(c: Config, s: State, t: Tid, a: RecvAct)
    requires t in s.pcs && CanRecv(c, s, t, s.pcs[t], a) && TimerInv(c, s)
    ensures TimerInv(c, DoRecv(c, s, t, s.pcs[t], a))
  {
    hide TimerInv, FiringOk;
    QuietTimers(c, s, t, RecvPc(c, s, t, s.pcs[t], a), DoRecv(c, s, t, s.pcs[t], a));
  }

  lemma FreeKeepsTimers(c: Config, s: State, t: Tid, a: FreeAct)
    requires t in s.pcs && CanFree(s, s.pcs[t], a) && TimerInv(c, s)
    ensures TimerInv(c, DoFree(c, s, t, s.pcs[t], a))
  {
    hide TimerInv, FiringOk;
    QuietTimers(c, s, t, FreePc(c, s, s.pcs[t], a), DoFree(c, s, t, s.pcs[t], a));
  }

  lemma RegKeepsTimers(c: Config, s: State, t: Tid, a: RegAct)
    requires t in s.pcs && CanReg(c, s, s.pcs[t], a) && TimerInv(c, s)
    ensures TimerInv(c, DoRegister(c, s, t, s.pcs[t], a))
  {
    hide TimerInv, FiringOk;
    QuietTimers(c, s, t, RegPc(c, s, s.pcs[t], a), DoRegister(c, s, t, s.pcs[t], a));
  }
}

/** Timers fire: as long as no other thread stays inside a mutex, the handler turns every expiry into a signal. */
module TimerLife {
  import opened Messages
  import opened Threads
  import opened System
  import opened Broadcast
  import opened Payload
  import opened TimerTable
  import opened Bounds
  import opened Invariant
  import opened TimerRuns
  import opened Completion

  function CallOf(tm: Timers, id: TimerId): SendOp
    requires id < |tm.started|
  {
    SendOp(tm.started[id].lab, None, Fired(id))
  }

  /** In b the handler was about to deal with timer id, and log is b's log with the record of its broadcast. */
  ghost predicate Told(b: State, id: TimerId, log: seq<SendRec>)
    requires id < |b.tm.started|
  {
    |log| == |b.log| + 1 && log[..|b.log|] == b.log && log[|b.log|].op == CallOf(b.tm, id)
  }

  ghost predicate ToldTrue(b: State, id: TimerId, log: seq<SendRec>)
    requires id < |b.tm.started|
  {
    Told(b, id, log) && log[|b.log|].ret == Some(true)
  }

  function TableAfter(tm: Timers, id: TimerId): map<Label, TimerId>
    requires id < |tm.started|
  {
    if tm.started[id].oneShot then tm.table - {tm.started[id].lab} else tm.table
  }

  /** How far the handler, in state pc, has got with timer id since b. */
  ghost predicate Stands(b: State, id: TimerId, pc: PC, tm: Timers, log: seq<SendRec>) {
    && id < |b.tm.started| && tm.started == b.tm.started && b.tm.started[id].lab in b.tm.table
    && var sent, op := b.tm.signals + [id], CallOf(b.tm, id);
       match pc
       case Hand(x, hs) =>
         && x == id
         && (if hs.HWant? || hs.HFire? then tm.signals == b.tm.signals && log == b.log
             else tm.signals == sent && ToldTrue(b, id, log))
         && (if hs.HCancelled? || hs.HLeave? then tm.table == TableAfter(b.tm, id) else tm.table == b.tm.table)
         && (hs.HCancel? || hs.HCancelled? ==> tm.started[id].oneShot)
       case SWant(o) => o == op && tm.signals == sent && tm.table == b.tm.table && log == b.log
       case Sending(o, _, _, _) => o == op && tm.signals == sent && tm.table == b.tm.table && Told(b, id, log)
       case Idle => tm.signals == sent && tm.table == TableAfter(b.tm, id) && ToldTrue(b, id, log)
       case _ => false
  }

  lemma HandStands(c: Config, s: State, h: Tid, a: TimerAct, b: State, id: TimerId)
    requires h in s.pcs && s.pcs[h].Hand? && CanTimer(c, s, h, s.pcs[h], a) && !a.Expire?
    requires Stands(b, id, s.pcs[h], s.tm, s.log)
    ensures var s' := DoTimers(c, s, h, s.pcs[h], a); Stands(b, id, s'.pcs[h], s'.tm, s'.log)
  {
  }

  lemma SendStands(c: Config, s: State, h: Tid, a: SendAct, b: State, id: TimerId)
    requires h in s.pcs && CanSend(c, s, s.pcs[h], a) && PcOk(c, s.pcs[h])
    requires s.pcs[h].SWant? || s.pcs[h].Sending?
    requires s.pcs[h].Sending? ==> Current(s.slots, s.log, s.pcs[h])
    requires Stands(b, id, s.pcs[h], s.tm, s.log)
    ensures Stands(b, id, SendPc(c, s, s.pcs[h], a), s.tm, SendLog(c, s, s.pcs[h], a))
  {
  }

  lemma SendLeaves(c: Config, s: State, h: Tid, a: SendAct)
    requires h in s.pcs && CanSend(c, s, s.pcs[h], a)
    ensures var s' := DoSend(c, s, h, s.pcs[h], a);
            s'.pcs == s.pcs[h := SendPc(c, s, s.pcs[h], a)] && s'.tm == s.tm && s'.log == SendLog(c, s, s.pcs[h], a)
  {
    hide CanSend, SendPc, SendQueues, SendFree, SendHeap, SendPlace, SendLog;
  }

  predicate Firing(pc: PC) {
    pc.Hand? || pc.SWant? || pc.Sending?
  }

  lemma OnlyFires(c: Config, s: State, h: Tid, a: Act)
    requires Can(c, s, h, a) && Firing(s.pcs[h]) && Inside(s.pcs[h], a)
    ensures (s.pcs[h].Hand? ==> a.Tmr?) && (!s.pcs[h].Hand? ==> a.Snd?)
  {
  }

  lemma StandsFiring(b: State, id: TimerId, pc: PC, tm: Timers, log: seq<SendRec>)
    requires Stands(b, id, pc, tm, log)
    ensures pc.Idle? || Firing(pc)
  {
  }

  lemma StepStands(c: Config, s: State, h: Tid, a: Act, b: State, id: TimerId)
    requires Can(c, s, h, a) && Firing(s.pcs[h]) && Inside(s.pcs[h], a) && PcOk(c, s.pcs[h])
    requires s.pcs[h].Sending? ==> Current(s.slots, s.log, s.pcs[h])
    requires Stands(b, id, s.pcs[h], s.tm, s.log)
    ensures var s' := Do(c, s, h, a); h in s'.pcs && Stands(b, id, s'.pcs[h], s'.tm, s'.log)
  {
    OnlyFires(c, s, h, a);
    hide CanSend, CanTimer, DoSend, DoTimers, SendPc, SendLog, Stands, PcOk, Current;
    if s.pcs[h].Hand? {
      HandStands(c, s, h, a.t, b, id);
      TimerLeaves(c, s, h, a.t);
    } else {
      SendStands(c, s, h, a.s, b, id);
      SendLeaves(c, s, h, a.s);
    }
  }

  lemma TimerLeaves(c: Config, s: State, h: Tid, a: TimerAct)
    requires h in s.pcs && CanTimer(c, s, h, s.pcs[h], a)
    ensures h in DoTimers(c, s, h, s.pcs[h], a).pcs
  {
  }

  /** The handler goes on with timer id in a run from o; since b nobody else has moved. */
  ghost predicate Goes(c: Config, o: State, b: State, id: TimerId, s: State) {
    Alone(c, o, b, c.handler, s) && Stands(b, id, s.pcs[c.handler], s.tm, s.log)
  }

  lemma GoesOn(c: Config, o: State, b: State, id: TimerId, s: State) returns (s': State)
    requires Goes(c, o, b, id, s) && !s.pcs[c.handler].Idle?
    ensures Goes(c, o, b, id, s') && Rank(c, s'.pcs[c.handler]) < Rank(c, s.pcs[c.handler])
  {
    hide Leads, Reachable, Calm, Stands, Alone, PcOk, Current, Rank, Can, Do;
    AloneFacts(c, o, b, s);
    StandsFiring(b, id, s.pcs[c.handler], s.tm, s.log);
    StillCalm(c, o, b, c.handler, s);
    var a := Moves(c, s, c.handler);
    StepStands(c, s, c.handler, a, b, id);
    s' := StaysAlone(c, o, b, c.handler, s, a);
  }

  lemma AloneFacts(c: Config, o: State, b: State, s: State)
    requires Alone(c, o, b, c.handler, s)
    ensures c.handler in s.pcs && Reachable(c, s)
  {
  }

  lemma {:induction false} Completes(c: Config, o: State, b: State, id: TimerId, s: State) returns (s': State)
    requires Goes(c, o, b, id, s)
    ensures Goes(c, o, b, id, s') && s'.pcs[c.handler].Idle?
    decreases Rank(c, s.pcs[c.handler])
  {
    hide Leads, Reachable, Stands, Calm, Rank;
    if s.pcs[c.handler].Idle? {
      s' := s;
    } else {
      var s1 := GoesOn(c, o, b, id, s);
      s' := Completes(c, o, b, id, s1);
    }
  }

  lemma Expires(c: Config, o: State, s: State, id: TimerId) returns (s': State)
    requires Leads(c, o, s) && Reachable(c, s) && c.handler in s.pcs && id in s.tm.armed && id < |s.tm.started|
    ensures Leads(c, o, s') && Reachable(c, s') && s'.pcs == s.pcs && s'.log == s.log && id in s'.tm.pending
    ensures s'.tm.started == s.tm.started && s'.tm.signals == s.tm.signals && s'.tm.table == s.tm.table
  {
    hide Reachable, Leads;
    LeadsOn(c, o, s, c.handler, Tmr(Expire(id)));
    Extend(c, s, c.handler, Tmr(Expire(id)));
    s' := Do(c, s, c.handler, Tmr(Expire(id)));
    assert s'.pcs == s.pcs;
  }

  lemma Takes(c: Config, o: State, s: State, id: TimerId) returns (s': State)
    requires Leads(c, o, s) && Reachable(c, s) && c.handler in s.pcs && s.pcs[c.handler].Idle? && id in s.tm.pending
    ensures Leads(c, o, s') && Reachable(c, s') && s'.pcs == s.pcs[c.handler := Hand(id, HWant)] && s'.log == s.log
    ensures s'.tm.started == s.tm.started && s'.tm.signals == s.tm.signals && s'.tm.table == s.tm.table
  {
    hide Reachable, Leads;
    LeadsOn(c, o, s, c.handler, Tmr(Dequeue(id)));
    Extend(c, s, c.handler, Tmr(Dequeue(id)));
    s' := Do(c, s, c.handler, Tmr(Dequeue(id)));
  }

  /** A live timer expires, unless it already has, and the idle handler dequeues it. */
  lemma Dequeues(c: Config, o: State, s: State, id: TimerId) returns (s': State)
    requires Leads(c, o, s) && Reachable(c, s) && c.handler in s.pcs && s.pcs[c.handler].Idle? && Calm(s.pcs, c.handler)
    requires id in s.tm.objs
    ensures Goes(c, o, s, id, s') && !s'.pcs[c.handler].Idle?
  {
    hide Reachable, Leads, Calm;
    LiveTimersRun(c, s, id);
    TableMatchesTimers(c, s);
    var s1 := s;
    if id !in s.tm.pending {
      s1 := Expires(c, o, s, id);
    }
    s' := Takes(c, o, s1, id);
  }

  lemma Fires(c: Config, o: State, s: State, id: TimerId) returns (s': State)
    requires Leads(c, o, s) && Reachable(c, s) && c.handler in s.pcs && s.pcs[c.handler].Idle? && Calm(s.pcs, c.handler)
    requires id in s.tm.objs
    ensures Leads(c, o, s') && Reachable(c, s') && s'.pcs == s.pcs && id < |s.tm.started|
    ensures s'.tm.started == s.tm.started && s'.tm.signals == s.tm.signals + [id] && ToldTrue(s, id, s'.log)
    ensures s'.tm.table == TableAfter(s.tm, id)
  {
    hide Reachable, Leads, Calm;
    var s1 := Dequeues(c, o, s, id);
    s' := Completes(c, o, s, id, s1);
  }

  /**
   * A live timer can fire whenever the handler is idle and nobody else is inside a mutex: a run leads to a state in which
   * one SendSignal for its label has returned true and all threads are where they were. A periodic timer is still in the
   * table then, and the label of a one-shot is free.
   */
  lemma LiveTimerFires(c: Config, s: State, id: TimerId)
    requires Reachable(c, s) && c.handler in s.pcs && s.pcs[c.handler].Idle? && Calm(s.pcs, c.handler)
    requires id in s.tm.objs
    ensures id < |s.tm.started|
    ensures exists s' :: Leads(c, s, s') && s'.pcs == s.pcs && s'.tm.started == s.tm.started
                         && s'.tm.signals == s.tm.signals + [id] && ToldTrue(s, id, s'.log)
                         && s'.tm.table == TableAfter(s.tm, id)
  {
    hide Leads, Reachable, Calm;
    LeadsHere(c, s);
    var s' := Fires(c, s, s, id);
  }

  function Repeat(id: TimerId, n: nat): seq<TimerId> {
    if n == 0 then [] else Repeat(id, n - 1) + [id]
  }

  lemma {:induction false} FiresOften(c: Config, s: State, id: TimerId, n: nat) returns (s': State)
    requires Reachable(c, s) && c.handler in s.pcs && s.pcs[c.handler].Idle? && Calm(s.pcs, c.handler)
    requires id in s.tm.objs && id < |s.tm.started| && !s.tm.started[id].oneShot
    ensures Leads(c, s, s') && Reachable(c, s') && s'.pcs == s.pcs && s'.tm.started == s.tm.started
    ensures s'.tm.table == s.tm.table && id in s'.tm.objs
    ensures s'.tm.signals == s.tm.signals + Repeat(id, n) && |s'.log| == |s.log| + n
  {
    hide Leads, Reachable, Calm;
    if n == 0 {
      LeadsHere(c, s);
      s' := s;
    } else {
      var s1 := FiresOften(c, s, id, n - 1);
      s' := Fires(c, s, s1, id);
      TableMatchesTimers(c, s);
      TableMatchesTimers(c, s');
    }
  }

  /** A periodic timer, once started, signals any number of times without being started again. */
  lemma PeriodicFires(c: Config, s: State, id: TimerId, n: nat)
    requires Reachable(c, s) && c.handler in s.pcs && s.pcs[c.handler].Idle? && Calm(s.pcs, c.handler)
    requires id in s.tm.objs && id < |s.tm.started| && !s.tm.started[id].oneShot
    ensures exists s' :: Leads(c, s, s') && s'.pcs == s.pcs && s'.tm.started == s.tm.started
                         && s'.tm.table == s.tm.table && id in s'.tm.objs
                         && s'.tm.signals == s.tm.signals + Repeat(id, n) && |s'.log| == |s.log| + n
  {
    hide Leads, Reachable, Calm;
    var s' := FiresOften(c, s, id, n);
  }
}

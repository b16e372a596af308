/** What a broadcast knows while it runs, and what its record says once it has returned. */
module Broadcast {
  import opened Messages
  import opened Receiver
  import opened Threads
  import opened System
  import opened Locks

  predicate SlotsOk(c: Config, slots: seq<Option<Mid>>) {
    && |slots| == c.maxReceivers
    && forall i :: 0 <= i < |slots| && slots[i].Some? ==> slots[i].value in c.caps
  }

  /** The shared tables cover every label and every mailbox. */
  ghost predicate Shape(c: Config, slots: map<Label, seq<Option<Mid>>>,
                        queues: map<Mid, seq<Entry>>, popped: map<Mid, seq<Entry>>) {
    && (forall l: Label {:trigger slots[l]} {:trigger l in slots} :: l in slots && SlotsOk(c, slots[l]))
    && queues.Keys == c.caps.Keys
    && popped.Keys == c.caps.Keys
  }

  predicate OpOk(op: SendOp) {
    (op.data.Some? ==> 0 < |op.data.value|) && (op.origin.Fired? ==> op.data.None?)
  }

  /** Facts about a program counter alone. The clean-up stage Bad is never reached. */
  predicate PcOk(c: Config, pc: PC) {
    match pc
    case SWant(op) => OpOk(op)
    case SRejected(op) => OpOk(op) && TooLarge(c, op)
    case Sending(op, i, ok, st) =>
      && OpOk(op) && !TooLarge(c, op) && i <= c.maxReceivers && (st.AtSlot? || i < c.maxReceivers)
      && !st.Bad? && (st.Checked? || st.Got? || st.Fill? ==> op.data.Some?)
      && (st.WantQ? || st.InQ? || st.Tested? ==> st.m in c.caps && (st.d.Some? <==> op.data.Some?))
      && (st.Pushed? || st.LeaveQ? ==> st.m in c.caps)
    case Recv(m, mode, rs) => m in c.caps && (rs.RWait? ==> !mode.Try?)
    case Reg(_, m, _, _) => m in c.caps
    case _ => true
  }

  ghost predicate PcsOk(c: Config, pcs: map<Tid, PC>) {
    forall t {:trigger pcs[t]} :: t in pcs ==> PcOk(c, pcs[t])
  }

  /** No copy has been lost so far; a signal does not notice lost copies. */
  predicate OkSoFar(r: SendRec) {
    Clean(r.op.data.Some?, r.outs)
  }

  predicate RecOk(c: Config, r: SendRec) {
    && SlotsOk(c, r.slots) && OpOk(r.op) && !TooLarge(c, r.op)
    && |r.outs| <= |r.slots|
    && (forall j :: 0 <= j < |r.outs| ==> (r.outs[j].Skipped? <==> r.slots[j].None?))
    && (forall j :: 0 <= j < |r.outs| && r.outs[j].Accepted? ==> (r.outs[j].data.Some? <==> r.op.data.Some?))
    && (r.ret.Some? ==> |r.outs| == |r.slots| && (r.ret.value <==> OkSoFar(r)))
  }

  ghost predicate SomeSender(pcs: map<Tid, PC>) {
    exists u {:trigger pcs[u]} :: u in pcs && pcs[u].Sending?
  }

  /** All broadcasts but the last have returned; the last one has not only while some thread sends. */
  ghost predicate LogOk(c: Config, pcs: map<Tid, PC>, log: seq<SendRec>) {
    && (forall k {:trigger log[k]} :: 0 <= k < |log| ==> RecOk(c, log[k]))
    && (forall k {:trigger log[k]} :: 0 <= k < |log| - 1 ==> log[k].ret.Some?)
    && (0 < |log| && log[|log| - 1].ret.None? ==> SomeSender(pcs))
  }

  function Progress(pc: PC): nat
    requires pc.Sending?
  {
    if pc.st.Pushed? || pc.st.LeaveQ? then pc.i + 1 else pc.i
  }

  /** The last record is that of the sending thread, which works on an unchanged set of slots. */
  predicate Current(slots: map<Label, seq<Option<Mid>>>, log: seq<SendRec>, pc: PC)
    requires pc.Sending?
  {
    && 0 < |log|
    && var r := log[|log| - 1];
       && r.op == pc.op && r.ret.None? && |r.outs| == Progress(pc)
       && pc.op.lab in slots && r.slots == slots[pc.op.lab]
       && (pc.ok <==> OkSoFar(r))
       && (!pc.st.AtSlot? ==> pc.i < |r.slots| && r.slots[pc.i].Some?)
       && (pc.st.WantQ? || pc.st.InQ? || pc.st.Tested? || pc.st.Pushed? || pc.st.LeaveQ? ==>
             r.slots[pc.i].value == pc.st.m)
       && (pc.st.Pushed? ==> r.outs[pc.i].Accepted?)
  }

  ghost predicate CurrentOk(slots: map<Label, seq<Option<Mid>>>, log: seq<SendRec>, pcs: map<Tid, PC>) {
    forall t {:trigger pcs[t]} :: t in pcs && pcs[t].Sending? ==> Current(slots, log, pcs[t])
  }

  ghost predicate SendInv(c: Config, s: State) {
    && Exclusion(s.pcs, c.handler)
    && Shape(c, s.slots, s.queues, s.popped)
    && PcsOk(c, s.pcs)
    && LogOk(c, s.pcs, s.log)
    && CurrentOk(s.slots, s.log, s.pcs)
  }

  lemma InitSend(c: Config, s: State)
    requires Init(c, s)
    ensures SendInv(c, s)
  {
  }

  // Sends -------------------------------------------------------------------------------------

  lemma SlotMailbox(c: Config, s: State, l: Label, i: nat)
    requires Shape(c, s.slots, s.queues, s.popped) && l in s.slots && i < |s.slots[l]|
    ensures i < c.maxReceivers && (s.slots[l][i].Some? ==> s.slots[l][i].value in c.caps)
  {
  }

  lemma AtSlotKeepsPc(c: Config, s: State, pc: PC, a: SendAct)
    requires CanSend(c, s, pc, a) && pc.Sending? && pc.st.AtSlot? && PcOk(c, pc)
    requires Shape(c, s.slots, s.queues, s.popped)
    ensures PcOk(c, SendPc(c, s, pc, a))
  {
    if pc.op.lab in s.slots && pc.i < |s.slots[pc.op.lab]| {
      SlotMailbox(c, s, pc.op.lab, pc.i);
    }
    hide Shape, PoolOf, Counters.Get;
  }

  lemma InSlotKeepsPc(c: Config, s: State, pc: PC, a: SendAct)
    requires CanSend(c, s, pc, a) && pc.Sending? && !pc.st.AtSlot? && PcOk(c, pc) && a != PutFail
    requires Shape(c, s.slots, s.queues, s.popped)
    ensures PcOk(c, SendPc(c, s, pc, a))
  {
    if a.Put? {
      SlotMailbox(c, s, pc.op.lab, pc.i);
    }
    hide Shape, MboxFree, QueueFree, Sleeps, PoolOf, Counters.Get;
  }

  lemma SendKeepsPc(c: Config, s: State, t: Tid, a: SendAct)
    requires t in s.pcs && CanSend(c, s, s.pcs[t], a)
    requires Shape(c, s.slots, s.queues, s.popped) && PcOk(c, s.pcs[t])
    requires a != PutFail
    ensures PcOk(c, SendPc(c, s, s.pcs[t], a))
  {
    hide Shape;
    if s.pcs[t].Sending? {
      hide PcOk, CanSend, SendPc;
      if s.pcs[t].st.AtSlot? {
        AtSlotKeepsPc(c, s, s.pcs[t], a);
      } else {
        InSlotKeepsPc(c, s, s.pcs[t], a);
      }
    }
  }

  lemma OneMore(r: SendRec, o: Outcome)
    ensures OkSoFar(r.(outs := r.outs + [o])) <==>
            OkSoFar(r) && (r.op.data.Some? ==> o.Skipped? || o.Accepted?)
  {
    var r' := r.(outs := r.outs + [o]);
    assert r'.outs[|r.outs|] == o;
    assert forall j :: 0 <= j < |r.outs| ==> r'.outs[j] == r.outs[j];
  }

  /** Steps that add an outcome to the record. */
  predicate Records(a: SendAct) {
    a.Skip? || a.Exhausted? || a.PmrFail? || a.Push? || a.Refuse?
  }

  lemma RecordKeepsCurrent(c: Config, s: State, t: Tid, a: SendAct)
    requires t in s.pcs && CanSend(c, s, s.pcs[t], a) && Records(a)
    requires PcOk(c, s.pcs[t]) && Current(s.slots, s.log, s.pcs[t])
    ensures Current(s.slots, SendLog(c, s, s.pcs[t], a), SendPc(c, s, s.pcs[t], a))
  {
    var r := s.log[|s.log| - 1];
    if a.Skip? {
      OneMore(r, Skipped);
    } else if a.Push? {
      OneMore(r, Accepted(s.pcs[t].st.d));
    } else if a.Refuse? {
      OneMore(r, Refused);
    } else {
      OneMore(r, NoBlock);
    }
    hide OkSoFar;
  }

  lemma OtherKeepsCurrent(c: Config, s: State, t: Tid, a: SendAct)
    requires t in s.pcs && CanSend(c, s, s.pcs[t], a) && !Records(a) && !a.Lock? && s.pcs[t].Sending?
    requires PcOk(c, s.pcs[t]) && a != PutFail && Current(s.slots, s.log, s.pcs[t]) && SendPc(c, s, s.pcs[t], a).Sending?
    ensures Current(s.slots, SendLog(c, s, s.pcs[t], a), SendPc(c, s, s.pcs[t], a))
  {
    hide OkSoFar, MboxFree, QueueFree, Sleeps;
  }

  lemma SendKeepsCurrent(c: Config, s: State, t: Tid, a: SendAct)
    requires t in s.pcs && CanSend(c, s, s.pcs[t], a) && a != PutFail
    requires PcOk(c, s.pcs[t]) && (s.pcs[t].Sending? ==> Current(s.slots, s.log, s.pcs[t]))
    ensures SendPc(c, s, s.pcs[t], a).Sending? ==>
              Current(s.slots, SendLog(c, s, s.pcs[t], a), SendPc(c, s, s.pcs[t], a))
  {
    if SendPc(c, s, s.pcs[t], a).Sending? && !a.Lock? {
      hide Current;
      if Records(a) {
        RecordKeepsCurrent(c, s, t, a);
      } else {
        OtherKeepsCurrent(c, s, t, a);
      }
    }
  }

  lemma RecGrows(c: Config, r: SendRec, o: Outcome)
    requires RecOk(c, r) && |r.outs| < |r.slots| && r.ret.None?
    requires o.Skipped? <==> r.slots[|r.outs|].None?
    requires o.Accepted? ==> (o.data.Some? <==> r.op.data.Some?)
    ensures RecOk(c, r.(outs := r.outs + [o]))
  {
  }

  /** A thread that was sending still is, unless it has just returned. */
  lemma SendKeepsSender(c: Config, s: State, t: Tid, a: SendAct)
    requires t in s.pcs && CanSend(c, s, s.pcs[t], a) && SomeSender(s.pcs) && a != Finish
    ensures SomeSender(s.pcs[t := SendPc(c, s, s.pcs[t], a)])
  {
    var u :| u in s.pcs && s.pcs[u].Sending?;
    var pcs' := s.pcs[t := SendPc(c, s, s.pcs[t], a)];
    assert pcs'[u].Sending?;
  }

  lemma LogAppend(c: Config, pcs: map<Tid, PC>, log: seq<SendRec>, r: SendRec, pcs': map<Tid, PC>)
    requires LogOk(c, pcs, log) && !SomeSender(pcs) && RecOk(c, r) && SomeSender(pcs')
    ensures LogOk(c, pcs', log + [r])
  {
    hide RecOk, SomeSender;
  }

  lemma LogChange(c: Config, pcs: map<Tid, PC>, log: seq<SendRec>, r: SendRec, pcs': map<Tid, PC>)
    requires LogOk(c, pcs, log) && 0 < |log| && RecOk(c, r) && (r.ret.Some? || SomeSender(pcs'))
    ensures LogOk(c, pcs', log[|log| - 1 := r])
  {
    hide RecOk, SomeSender;
  }

  lemma LogStays(c: Config, pcs: map<Tid, PC>, log: seq<SendRec>, pcs': map<Tid, PC>)
    requires LogOk(c, pcs, log) && (SomeSender(pcs) ==> SomeSender(pcs'))
    ensures LogOk(c, pcs', log)
  {
    hide RecOk, SomeSender;
  }

  /** The last record after a step that adds an outcome to it or sets its result. */
  lemma RecordChanges(c: Config, s: State, t: Tid, a: SendAct)
    requires t in s.pcs && CanSend(c, s, s.pcs[t], a) && (Records(a) || a.Finish?)
    requires PcOk(c, s.pcs[t]) && Current(s.slots, s.log, s.pcs[t]) && RecOk(c, s.log[|s.log| - 1])
    ensures var log' := SendLog(c, s, s.pcs[t], a);
            |log'| == |s.log| && log' == s.log[|s.log| - 1 := log'[|s.log| - 1]] && RecOk(c, log'[|s.log| - 1])
    ensures a.Finish? ==> SendLog(c, s, s.pcs[t], a)[|s.log| - 1].ret.Some?
  {
    var r := s.log[|s.log| - 1];
    if a.Skip? {
      RecGrows(c, r, Skipped);
    } else if a.Exhausted? || a.PmrFail? {
      RecGrows(c, r, NoBlock);
    } else if a.Push? {
      RecGrows(c, r, Accepted(s.pcs[t].st.d));
    } else if a.Refuse? {
      RecGrows(c, r, Refused);
    }
    hide SlotsOk, OkSoFar;
  }

  lemma SendKeepsLog(c: Config, s: State, t: Tid, a: SendAct)
    requires t in s.pcs && CanSend(c, s, s.pcs[t], a) && a != PutFail
    requires Shape(c, s.slots, s.queues, s.popped) && PcOk(c, s.pcs[t]) && LogOk(c, s.pcs, s.log)
    requires s.pcs[t].Sending? ==> Current(s.slots, s.log, s.pcs[t])
    ensures LogOk(c, s.pcs[t := SendPc(c, s, s.pcs[t], a)], SendLog(c, s, s.pcs[t], a))
  {
    var pcs' := s.pcs[t := SendPc(c, s, s.pcs[t], a)];
    assert pcs'[t] == SendPc(c, s, s.pcs[t], a);
    if SomeSender(s.pcs) && a != Finish {
      SendKeepsSender(c, s, t, a);
    }
    if a.Lock? {
      LogAppend(c, s.pcs, s.log, SendRec(s.pcs[t].op, s.slots[s.pcs[t].op.lab], [], None), pcs');
    } else if Records(a) || a.Finish? {
      assert RecOk(c, s.log[|s.log| - 1]);
      RecordChanges(c, s, t, a);
      hide RecOk, Current, CanSend, SendPc, SendLog, SomeSender;
      LogChange(c, s.pcs, s.log, SendLog(c, s, s.pcs[t], a)[|s.log| - 1], pcs');
    } else {
      LogStays(c, s.pcs, s.log, pcs');
    }
  }

  /** While another thread sends, this one leaves the log alone. */
  lemma SendLeavesLog(c: Config, s: State, t: Tid, u: Tid, a: SendAct)
    requires t in s.pcs && CanSend(c, s, s.pcs[t], a) && Exclusion(s.pcs, c.handler)
    requires u in s.pcs && u != t && HoldsMbox(s.pcs[u])
    ensures SendLog(c, s, s.pcs[t], a) == s.log
  {
  }

  lemma SendKeepsSend(c: Config, s: State, t: Tid, a: SendAct)
    requires t in s.pcs && CanSend(c, s, s.pcs[t], a) && SendInv(c, s) && a != PutFail
    ensures SendInv(c, DoSend(c, s, t, s.pcs[t], a))
  {
    hide Exclusion, Shape, PcOk, LogOk, Current, CanSend, SendPc, SendLog;
    KeepsExclusion(c, s, t, Snd(a));
    SendKeepsPc(c, s, t, a);
    SendKeepsCurrent(c, s, t, a);
    SendKeepsLog(c, s, t, a);
    SendKeepsShape(c, s, t, a);
    SendKeepsCurrents(c, s, t, a);
  }

  lemma SendKeepsShape(c: Config, s: State, t: Tid, a: SendAct)
    requires t in s.pcs && CanSend(c, s, s.pcs[t], a) && Shape(c, s.slots, s.queues, s.popped)
    ensures Shape(c, s.slots, SendQueues(c, s, s.pcs[t], a), s.popped)
  {
  }

  lemma SendKeepsCurrents(c: Config, s: State, t: Tid, a: SendAct)
    requires t in s.pcs && CanSend(c, s, s.pcs[t], a) && CurrentOk(s.slots, s.log, s.pcs) && Exclusion(s.pcs, c.handler)
    requires SendPc(c, s, s.pcs[t], a).Sending? ==>
               Current(s.slots, SendLog(c, s, s.pcs[t], a), SendPc(c, s, s.pcs[t], a))
    ensures CurrentOk(s.slots, SendLog(c, s, s.pcs[t], a), s.pcs[t := SendPc(c, s, s.pcs[t], a)])
  {
    hide Exclusion, Current, CanSend, SendPc, SendLog;
    var pcs' := s.pcs[t := SendPc(c, s, s.pcs[t], a)];
    forall u {:trigger pcs'[u]} | u in pcs' && pcs'[u].Sending?
      ensures Current(s.slots, SendLog(c, s, s.pcs[t], a), pcs'[u])
    {
      if u != t {
        SendLeavesLog(c, s, t, u, a);
      }
    }
  }

  // The other families ------------------------------------------------------------------------

  /** The program counter of a thread that neither sends nor starts to. */
  predicate Quiet(c: Config, pc: PC, next: PC) {
    PcOk(c, next) && (next == pc || (!pc.Sending? && !next.Sending?))
  }

  lemma QuietPcs(c: Config, pcs: map<Tid, PC>, t: Tid, next: PC)
    requires t in pcs && PcsOk(c, pcs) && PcOk(c, next)
    ensures PcsOk(c, pcs[t := next])
  {
    hide PcOk;
  }

  lemma QuietLog(c: Config, pcs: map<Tid, PC>, log: seq<SendRec>, t: Tid, next: PC)
    requires t in pcs && LogOk(c, pcs, log) && Quiet(c, pcs[t], next)
    ensures LogOk(c, pcs[t := next], log)
  {
    hide PcOk, RecOk;
    if SomeSender(pcs) {
      var u :| u in pcs && pcs[u].Sending?;
      assert pcs[t := next][u].Sending?;
    }
  }

  lemma QuietCurrents(c: Config, slots: map<Label, seq<Option<Mid>>>, log: seq<SendRec>, pcs: map<Tid, PC>,
                      t: Tid, next: PC)
    requires t in pcs && CurrentOk(slots, log, pcs) && Quiet(c, pcs[t], next)
    ensures CurrentOk(slots, log, pcs[t := next])
  {
    hide PcOk, Current;
  }

  /** A step that leaves the log alone and starts no broadcast. */
  lemma QuietKeepsSend(c: Config, s: State, t: Tid, next: PC, s': State)
    requires t in s.pcs && SendInv(c, s) && Quiet(c, s.pcs[t], next)
    requires s'.pcs == s.pcs[t := next] && s'.slots == s.slots && s'.log == s.log
    requires Exclusion(s'.pcs, c.handler)
    requires s'.queues.Keys == s.queues.Keys && s'.popped.Keys == s.popped.Keys
    ensures SendInv(c, s')
  {
    QuietPcs(c, s.pcs, t, next);
    QuietLog(c, s.pcs, s.log, t, next);
    QuietCurrents(c, s.slots, s.log, s.pcs, t, next);
    hide Exclusion, PcsOk, LogOk, CurrentOk, SlotsOk, PcOk;
  }

  lemma PcHere(c: Config, s: State, t: Tid)
    requires SendInv(c, s) && t in s.pcs
    ensures PcOk(c, s.pcs[t]) && Exclusion(s.pcs, c.handler)
  {
    hide PcOk;
  }

  lemma RecvQuiet(c: Config, s: State, t: Tid, a: RecvAct)
    requires t in s.pcs && CanRecv(c, s, t, s.pcs[t], a) && PcOk(c, s.pcs[t])
    ensures Quiet(c, s.pcs[t], RecvPc(c, s, t, s.pcs[t], a))
    ensures var s' := DoRecv(c, s, t, s.pcs[t], a);
            && s'.pcs == s.pcs[t := RecvPc(c, s, t, s.pcs[t], a)] && s'.slots == s.slots && s'.log == s.log
            && s'.queues.Keys == s.queues.Keys && s'.popped.Keys == s.popped.Keys
  {
  }

  lemma RecvKeepsSend(c: Config, s: State, t: Tid, a: RecvAct)
    requires t in s.pcs && CanRecv(c, s, t, s.pcs[t], a) && SendInv(c, s)
    ensures SendInv(c, DoRecv(c, s, t, s.pcs[t], a))
  {
    hide SendInv, CanRecv, RecvPc, DoRecv, PcOk, Exclusion;
    PcHere(c, s, t);
    KeepsExclusion(c, s, t, Rcv(a));
    RecvQuiet(c, s, t, a);
    QuietKeepsSend(c, s, t, RecvPc(c, s, t, s.pcs[t], a), DoRecv(c, s, t, s.pcs[t], a));
  }

  lemma FreeQuiet(c: Config, s: State, t: Tid, a: FreeAct)
    requires t in s.pcs && CanFree(s, s.pcs[t], a)
    ensures Quiet(c, s.pcs[t], FreePc(c, s, s.pcs[t], a))
    ensures var s' := DoFree(c, s, t, s.pcs[t], a);
            && s'.pcs == s.pcs[t := FreePc(c, s, s.pcs[t], a)] && s'.slots == s.slots && s'.log == s.log
            && s'.queues == s.queues && s'.popped == s.popped
  {
  }

  lemma FreeKeepsSend(c: Config, s: State, t: Tid, a: FreeAct)
    requires t in s.pcs && CanFree(s, s.pcs[t], a) && SendInv(c, s)
    ensures SendInv(c, DoFree(c, s, t, s.pcs[t], a))
  {
    hide SendInv, CanFree, FreePc, DoFree, PcOk, Exclusion;
    PcHere(c, s, t);
    KeepsExclusion(c, s, t, Fre(a));
    FreeQuiet(c, s, t, a);
    QuietKeepsSend(c, s, t, FreePc(c, s, s.pcs[t], a), DoFree(c, s, t, s.pcs[t], a));
  }

  lemma TimerQuiet(c: Config, s: State, t: Tid, a: TimerAct)
    requires t in s.pcs && CanTimer(c, s, t, s.pcs[t], a) && PcOk(c, s.pcs[t])
    ensures Quiet(c, s.pcs[t], TimerPc(c, s, t, s.pcs[t], a))
  {
  }

  lemma TimerKeepsSend(c: Config, s: State, t: Tid, a: TimerAct)
    requires t in s.pcs && CanTimer(c, s, t, s.pcs[t], a) && SendInv(c, s)
    ensures SendInv(c, DoTimers(c, s, t, s.pcs[t], a))
  {
    hide SendInv, CanTimer, TimerPc, NextTimers, PcOk, Exclusion;
    PcHere(c, s, t);
    KeepsExclusion(c, s, t, Tmr(a));
    TimerQuiet(c, s, t, a);
    QuietKeepsSend(c, s, t, TimerPc(c, s, t, s.pcs[t], a), DoTimers(c, s, t, s.pcs[t], a));
  }

  lemma RegQuiet(c: Config, s: State, t: Tid, a: RegAct)
    requires t in s.pcs && CanReg(c, s, s.pcs[t], a) && PcOk(c, s.pcs[t])
    ensures Quiet(c, s.pcs[t], RegPc(c, s, s.pcs[t], a))
    ensures var s' := DoRegister(c, s, t, s.pcs[t], a);
            s' == s.(pcs := s.pcs[t := RegPc(c, s, s.pcs[t], a)], slots := s'.slots)
    ensures !a.DoReg? ==> DoRegister(c, s, t, s.pcs[t], a).slots == s.slots
  {
  }

  lemma NoSenderBeside(pcs: map<Tid, PC>, t: Tid, handler: Tid)
    requires Exclusion(pcs, handler) && t in pcs && HoldsMbox(pcs[t]) && !pcs[t].Sending?
    ensures forall u {:trigger pcs[u]} :: u in pcs ==> !pcs[u].Sending?
  {
  }

  /** The mailbox mutex keeps slots and broadcasts apart. */
  lemma RegKeepsSlots(c: Config, s: State, t: Tid, a: RegAct)
    requires t in s.pcs && CanReg(c, s, s.pcs[t], a) && a.DoReg? && PcOk(c, s.pcs[t])
    requires Shape(c, s.slots, s.queues, s.popped) && CurrentOk(s.slots, s.log, s.pcs) && Exclusion(s.pcs, c.handler)
    ensures Shape(c, DoRegister(c, s, t, s.pcs[t], a).slots, s.queues, s.popped)
    ensures CurrentOk(DoRegister(c, s, t, s.pcs[t], a).slots, s.log, s.pcs)
  {
    var pc := s.pcs[t];
    AddKeepsSlots(c, s.slots[pc.lab], pc.m);
    hide AddSlot, RemoveSlot, SlotsOk, OkSoFar;
    NoSenderBeside(s.pcs, t, c.handler);
  }

  lemma RegKeepsSend(c: Config, s: State, t: Tid, a: RegAct)
    requires t in s.pcs && CanReg(c, s, s.pcs[t], a) && SendInv(c, s)
    ensures SendInv(c, DoRegister(c, s, t, s.pcs[t], a))
  {
    hide CanReg, RegPc, DoRegister, PcOk, Exclusion, Shape, LogOk, CurrentOk;
    PcHere(c, s, t);
    KeepsExclusion(c, s, t, Rgs(a));
    RegQuiet(c, s, t, a);
    if a.DoReg? {
      RegKeepsSlots(c, s, t, a);
    }
    QuietKeepsSend(c, s.(slots := DoRegister(c, s, t, s.pcs[t], a).slots), t, RegPc(c, s, s.pcs[t], a),
                   DoRegister(c, s, t, s.pcs[t], a));
  }

  lemma AddKeepsSlots(c: Config, slots: seq<Option<Mid>>, m: Mid)
    requires SlotsOk(c, slots) && m in c.caps
    ensures SlotsOk(c, AddSlot(slots, m)) && SlotsOk(c, RemoveSlot(slots, m))
  {
    var k := FirstFree(slots);
    var added, removed := AddSlot(slots, m), RemoveSlot(slots, m);
    assert |added| == |slots| && |removed| == |slots|;
    assert forall i :: 0 <= i < |slots| ==> added[i] == slots[i] || added[i] == Some(m);
    assert forall i :: 0 <= i < |slots| ==> removed[i] == slots[i] || removed[i] == None;
  }
}

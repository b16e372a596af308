/** Mutual exclusion is kept by every step. */
module Locks {
  import opened Messages
  import opened Threads
  import opened System

  lemma SendPoliteMbox(c: Config, s: State, pc: PC, a: SendAct)
    requires CanSend(c, s, pc, a)
    ensures HoldsMbox(SendPc(c, s, pc, a)) ==> HoldsMbox(pc) || MboxFree(s.pcs)
  {
    hide MboxFree, QueueFree, Sleeps;
  }

  lemma SendPoliteQueue(c: Config, s: State, pc: PC, a: SendAct, m: Mid)
    requires CanSend(c, s, pc, a)
    ensures HoldsQueue(SendPc(c, s, pc, a), m) ==> HoldsQueue(pc, m) || QueueFree(s.pcs, m)
  {
    hide MboxFree, QueueFree, Sleeps;
  }

  lemma SendPoliteTimer(c: Config, s: State, pc: PC, a: SendAct)
    requires CanSend(c, s, pc, a)
    ensures TimerDepth(SendPc(c, s, pc, a)) > 0 ==> TimerDepth(pc) > 0
    ensures var next := SendPc(c, s, pc, a); next.Hand? || InFire(next) ==> pc.Hand? || InFire(pc)
  {
    hide MboxFree, QueueFree, Sleeps;
  }

  lemma SendPolite(c: Config, s: State, t: Tid, a: SendAct)
    requires t in s.pcs && CanSend(c, s, s.pcs[t], a)
    ensures Polite(s.pcs, t, SendPc(c, s, s.pcs[t], a), c.handler)
  {
    hide CanSend, SendPc, MboxFree, QueueFree, HoldsMbox, HoldsQueue, TimerDepth, InFire;
    SendPoliteMbox(c, s, s.pcs[t], a);
    SendPoliteTimer(c, s, s.pcs[t], a);
    forall m
      ensures HoldsQueue(SendPc(c, s, s.pcs[t], a), m) ==> HoldsQueue(s.pcs[t], m) || QueueFree(s.pcs, m)
    {
      SendPoliteQueue(c, s, s.pcs[t], a, m);
    }
  }

  lemma RecvPolite(c: Config, s: State, t: Tid, a: RecvAct)
    requires t in s.pcs && CanRecv(c, s, t, s.pcs[t], a)
    ensures Polite(s.pcs, t, RecvPc(c, s, t, s.pcs[t], a), c.handler)
  {
  }

  lemma FreePolite(c: Config, s: State, t: Tid, a: FreeAct)
    requires t in s.pcs && CanFree(s, s.pcs[t], a)
    ensures Polite(s.pcs, t, FreePc(c, s, s.pcs[t], a), c.handler)
  {
  }

  lemma RegPolite(c: Config, s: State, t: Tid, a: RegAct)
    requires t in s.pcs && CanReg(c, s, s.pcs[t], a)
    ensures Polite(s.pcs, t, RegPc(c, s, s.pcs[t], a), c.handler)
  {
  }

  lemma TimerPolite(c: Config, s: State, t: Tid, a: TimerAct)
    requires t in s.pcs && CanTimer(c, s, t, s.pcs[t], a)
    ensures Polite(s.pcs, t, TimerPc(c, s, t, s.pcs[t], a), c.handler)
  {
  }

  /** No step lets a second thread into a mutex. */
  lemma KeepsExclusion(c: Config, s: State, t: Tid, a: Act)
    requires Can(c, s, t, a) && Exclusion(s.pcs, c.handler)
    ensures Exclusion(Do(c, s, t, a).pcs, c.handler)
  {
    hide CanSend, CanRecv, CanFree, CanReg, CanTimer, Polite, Exclusion;
    OneThreadMoves(c, s, t, a);
    match a {
    case Snd(x) => SendPolite(c, s, t, x);
    case Rcv(x) => RecvPolite(c, s, t, x);
    case Fre(x) => FreePolite(c, s, t, x);
    case Rgs(x) => RegPolite(c, s, t, x);
    case Tmr(x) => TimerPolite(c, s, t, x);
    }
    PoliteKeepsExclusion(s.pcs, t, NextPc(c, s, t, a), c.handler);
  }
}

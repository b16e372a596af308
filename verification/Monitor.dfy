/** What a thread has observed of a queue stays true until it gives up the queue's mutex. */
module Monitor {
  import opened Messages
  import opened Threads
  import opened System

  /** The comparison with the capacity, or the wait predicate, still has the value the thread saw. */
  predicate SeenOk(c: Config, queues: map<Mid, seq<Entry>>, pc: PC) {
    && (pc.Sending? && pc.st.Tested? && pc.st.m in queues && pc.st.m in c.caps ==>
          (pc.st.room <==> |queues[pc.st.m]| < c.caps[pc.st.m]))
    && (pc.Recv? && pc.rs.RSaw? && pc.m in queues ==> (pc.rs.found <==> queues[pc.m] != []))
  }

  ghost predicate Seen(c: Config, pcs: map<Tid, PC>, queues: map<Mid, seq<Entry>>) {
    forall t {:trigger pcs[t]} :: t in pcs ==> SeenOk(c, queues, pcs[t])
  }

  ghost predicate MonitorInv(c: Config, s: State) {
    Seen(c, s.pcs, s.queues)
  }

  lemma InitMonitor(c: Config, s: State)
    requires Init(c, s)
    ensures MonitorInv(c, s)
  {
  }

  lemma SeenHere(c: Config, s: State, t: Tid)
    requires MonitorInv(c, s) && t in s.pcs
    ensures SeenOk(c, s.queues, s.pcs[t])
  {
  }

  /** Only queue m changes, and thread t holds its mutex. */
  lemma SeenUpdate(c: Config, pcs: map<Tid, PC>, queues: map<Mid, seq<Entry>>, t: Tid, next: PC, m: Mid, q: seq<Entry>,
                   handler: Tid)
    requires Seen(c, pcs, queues) && t in pcs && Exclusion(pcs, handler) && HoldsQueue(pcs[t], m)
    requires SeenOk(c, queues[m := q], next)
    ensures Seen(c, pcs[t := next], queues[m := q])
  {
    forall u {:trigger pcs[t := next][u]} | u in pcs[t := next]
      ensures SeenOk(c, queues[m := q], pcs[t := next][u])
    {
      if u != t {
        assert HoldsQueue(pcs[u], m) ==> u == t;
      }
    }
  }

  lemma SeenStay(c: Config, pcs: map<Tid, PC>, queues: map<Mid, seq<Entry>>, t: Tid, next: PC)
    requires Seen(c, pcs, queues) && t in pcs && SeenOk(c, queues, next)
    ensures Seen(c, pcs[t := next], queues)
  {
  }

  lemma SendKeepsMonitor(c: Config, s: State, t: Tid, a: SendAct)
    requires t in s.pcs && CanSend(c, s, s.pcs[t], a) && Exclusion(s.pcs, c.handler) && MonitorInv(c, s)
    ensures MonitorInv(c, DoSend(c, s, t, s.pcs[t], a))
  {
    var pc, next := s.pcs[t], SendPc(c, s, s.pcs[t], a);
    if a.Push? {
      hide SeenOk, Seen, Exclusion;
      SendSees(c, s, pc, a);
      SeenUpdate(c, s.pcs, s.queues, t, next, pc.st.m, SendQueues(c, s, pc, a)[pc.st.m], c.handler);
    } else {
      hide Seen, Exclusion;
      SendSees(c, s, pc, a);
      SeenStay(c, s.pcs, s.queues, t, next);
    }
  }

  lemma SendSees(c: Config, s: State, pc: PC, a: SendAct)
    requires CanSend(c, s, pc, a)
    ensures SeenOk(c, SendQueues(c, s, pc, a), SendPc(c, s, pc, a))
  {
  }

  lemma RecvSees(c: Config, s: State, t: Tid, pc: PC, a: RecvAct)
    requires CanRecv(c, s, t, pc, a)
    ensures SeenOk(c, DoRecv(c, s, t, pc, a).queues, RecvPc(c, s, t, pc, a))
    ensures DoRecv(c, s, t, pc, a).queues ==
            if a.Pop? && s.queues[pc.m] != [] then s.queues[pc.m := s.queues[pc.m][1..]] else s.queues
  {
  }

  lemma RecvKeepsMonitor(c: Config, s: State, t: Tid, a: RecvAct)
    requires t in s.pcs && CanRecv(c, s, t, s.pcs[t], a) && Exclusion(s.pcs, c.handler) && MonitorInv(c, s)
    ensures MonitorInv(c, DoRecv(c, s, t, s.pcs[t], a))
  {
    var pc, next := s.pcs[t], RecvPc(c, s, t, s.pcs[t], a);
    RecvSees(c, s, t, pc, a);
    RecvMoves(c, s, t, pc, a);
    if a.Pop? && s.queues[pc.m] != [] {
      SeenUpdate(c, s.pcs, s.queues, t, next, pc.m, s.queues[pc.m][1..], c.handler);
    } else {
      SeenStay(c, s.pcs, s.queues, t, next);
    }
    hide SeenOk, Seen, Exclusion, DoRecv, RecvPc;
  }

  predicate Elsewhere(pc: PC) {
    !pc.Sending? && !pc.Recv?
  }

  /** A step that is not about queues. */
  lemma ElsewhereKeepsMonitor(c: Config, s: State, t: Tid, next: PC)
    requires t in s.pcs && MonitorInv(c, s) && (next == s.pcs[t] || Elsewhere(next))
    ensures Seen(c, s.pcs[t := next], s.queues)
  {
  }

  lemma FreeElsewhere(c: Config, s: State, t: Tid, pc: PC, a: FreeAct)
    requires CanFree(s, pc, a)
    ensures FreePc(c, s, pc, a) == pc || Elsewhere(FreePc(c, s, pc, a))
    ensures DoFree(c, s, t, pc, a).queues == s.queues
  {
  }

  lemma RegElsewhere(c: Config, s: State, t: Tid, pc: PC, a: RegAct)
    requires CanReg(c, s, pc, a)
    ensures RegPc(c, s, pc, a) == pc || Elsewhere(RegPc(c, s, pc, a))
    ensures DoRegister(c, s, t, pc, a).queues == s.queues
  {
  }

  lemma TimerElsewhere(c: Config, s: State, t: Tid, pc: PC, a: TimerAct)
    requires CanTimer(c, s, t, pc, a)
    ensures TimerPc(c, s, t, pc, a) == pc || Elsewhere(TimerPc(c, s, t, pc, a))
    ensures DoTimers(c, s, t, pc, a).queues == s.queues
  {
  }

  lemma OthersKeepMonitor(c: Config, s: State, t: Tid, a: Act)
    requires Can(c, s, t, a) && (a.Fre? || a.Rgs? || a.Tmr?) && MonitorInv(c, s)
    ensures MonitorInv(c, Do(c, s, t, a))
  {
    hide CanSend, CanRecv, CanFree, CanReg, CanTimer, DoSend, DoRecv, DoFree, DoRegister, DoTimers, Seen, Elsewhere;
    OneThreadMoves(c, s, t, a);
    match a {
    case Fre(x) => FreeElsewhere(c, s, t, s.pcs[t], x);
    case Rgs(x) => RegElsewhere(c, s, t, s.pcs[t], x);
    case Tmr(x) => TimerElsewhere(c, s, t, s.pcs[t], x);
    }
    ElsewhereKeepsMonitor(c, s, t, NextPc(c, s, t, a));
  }

  /** The state a thread acts on is the one it tested: pop finds an element, push_back finds room. */
  lemma ActsOnWhatItSaw(c: Config, s: State, t: Tid)
    requires t in s.pcs && MonitorInv(c, s)
    ensures CanRecv(c, s, t, s.pcs[t], Pop) ==> s.queues[s.pcs[t].m] != []
    ensures CanSend(c, s, s.pcs[t], Push) ==> |s.queues[s.pcs[t].st.m]| < c.caps[s.pcs[t].st.m]
    ensures CanSend(c, s, s.pcs[t], Refuse) ==> |s.queues[s.pcs[t].st.m]| >= c.caps[s.pcs[t].st.m]
  {
  }
}

/** The condition variable of a queue never loses a wake-up. */
module Wakeup {
  import opened Messages
  import opened Threads
  import opened System
  import opened Monitor

  /** Only threads in the wait of pop or popWait, before any time-out, are condition-variable waiters. */
  ghost predicate WaitersOk(pcs: map<Tid, PC>, asleep: set<Tid>) {
    forall t {:trigger t in asleep} :: t in asleep ==> t in pcs && pcs[t].Recv? && pcs[t].rs.RWait? && !pcs[t].rs.expired
  }

  ghost function Sleepers(pcs: map<Tid, PC>, asleep: set<Tid>, m: Mid): set<Tid> {
    set t | t in asleep && Sleeps(pcs, asleep, t, m)
  }

  /** Consumers awake inside pop, popWait or tryPop that have yet to test (or re-test) for an element, or to take it. */
  predicate WillTest(pcs: map<Tid, PC>, asleep: set<Tid>, t: Tid, m: Mid) {
    && t in pcs && pcs[t].Recv? && pcs[t].m == m
    && (pcs[t].rs.RTest? || (pcs[t].rs.RSaw? && pcs[t].rs.found) || (pcs[t].rs.RWait? && t !in asleep))
  }

  ghost function Testers(pcs: map<Tid, PC>, asleep: set<Tid>, m: Mid): set<Tid> {
    set t | t in pcs && WillTest(pcs, asleep, t, m)
  }

  /** Producers that have pushed and have yet to call notify_one. */
  ghost function Notifier(m: Mid): PC -> bool {
    (pc: PC) => pc.Sending? && pc.st == Pushed(m)
  }

  /** While anyone sleeps on m's queue, every element is covered by a pending test or notification. */
  ghost predicate Covered(pcs: map<Tid, PC>, asleep: set<Tid>, length: nat, m: Mid) {
    Sleepers(pcs, asleep, m) != {} ==>
      length <= |Testers(pcs, asleep, m)| + |Where(pcs, Notifier(m))|
  }

  ghost predicate WakeInv(s: State) {
    && WaitersOk(s.pcs, s.asleep)
    && forall m {:trigger s.queues[m]} :: m in s.queues ==> Covered(s.pcs, s.asleep, |s.queues[m]|, m)
  }

  lemma InitWake(c: Config, s: State)
    requires Init(c, s)
    ensures WakeInv(s)
  {
  }

  lemma OthersTest(pcs: map<Tid, PC>, asleep: set<Tid>, t: Tid, next: PC, asleep': set<Tid>, m: Mid)
    requires t in pcs && (asleep' == asleep || asleep' == asleep + {t} || asleep' == asleep - {t})
    ensures Testers(pcs[t := next], asleep', m) - {t} == Testers(pcs, asleep, m) - {t}
    ensures t in Testers(pcs, asleep, m) <==> WillTest(pcs, asleep, t, m)
    ensures t in Testers(pcs[t := next], asleep', m) <==> WillTest(pcs[t := next], asleep', t, m)
  {
  }

  /** Thread t moves, and perhaps another one is woken or t falls asleep. */
  lemma TestersMove(pcs: map<Tid, PC>, asleep: set<Tid>, t: Tid, next: PC, asleep': set<Tid>, m: Mid)
    requires t in pcs && (asleep' == asleep || asleep' == asleep + {t} || asleep' == asleep - {t})
    ensures |Testers(pcs[t := next], asleep', m)| ==
            |Testers(pcs, asleep, m)| - One(WillTest(pcs, asleep, t, m)) + One(WillTest(pcs[t := next], asleep', t, m))
  {
    OthersTest(pcs, asleep, t, next, asleep', m);
    Remove(Testers(pcs, asleep, m), t);
    Remove(Testers(pcs[t := next], asleep', m), t);
    hide Testers, WillTest;
  }

  lemma Remove(s: set<Tid>, t: Tid)
    ensures |s| == |s - {t}| + One(t in s)
  {
    if t in s {
      assert s == (s - {t}) + {t};
    } else {
      assert s == s - {t};
    }
  }

  lemma NotifiersMove(pcs: map<Tid, PC>, t: Tid, next: PC, m: Mid)
    requires t in pcs
    ensures |Where(pcs[t := next], Notifier(m))| ==
            |Where(pcs, Notifier(m))| - One(Notifier(m)(pcs[t])) + One(Notifier(m)(next))
  {
    WhereUpdate(pcs, t, next, Notifier(m));
    assert t in Where(pcs, Notifier(m)) <==> Notifier(m)(pcs[t]);
  }

  /** A move that adds no sleeper on m and pays for every element it adds. */
  lemma CoveredMove(pcs: map<Tid, PC>, asleep: set<Tid>, length: nat, t: Tid, next: PC, asleep': set<Tid>,
                    length': nat, m: Mid)
    requires t in pcs && Covered(pcs, asleep, length, m)
    requires asleep' == asleep || asleep' == asleep - {t}
    requires Sleeps(pcs[t := next], asleep', t, m) ==> Sleeps(pcs, asleep, t, m)
    requires length' - One(WillTest(pcs[t := next], asleep', t, m)) - One(Notifier(m)(next)) <=
             length - One(WillTest(pcs, asleep, t, m)) - One(Notifier(m)(pcs[t]))
    ensures Covered(pcs[t := next], asleep', length', m)
  {
    TestersMove(pcs, asleep, t, next, asleep', m);
    NotifiersMove(pcs, t, next, m);
    assert Sleepers(pcs[t := next], asleep', m) <= Sleepers(pcs, asleep, m);
  }

  /** notify_one turns one sleeper into a tester. */
  lemma CoveredNotify(pcs: map<Tid, PC>, asleep: set<Tid>, length: nat, t: Tid, next: PC, w: Tid, m: Mid)
    requires t in pcs && pcs[t].Sending? && next.Sending? && Covered(pcs, asleep, length, m)
    requires w in asleep && w in pcs && pcs[w].Recv? && pcs[w].rs.RWait?
    requires Notifier(m)(pcs[t]) ==> pcs[w].m == m
    requires !Notifier(m)(next)
    ensures Covered(pcs[t := next], asleep - {w}, length, m)
  {
    var asleep' := asleep - {w};
    NotifiersMove(pcs, t, next, m);
    var before, after := Testers(pcs, asleep, m), Testers(pcs[t := next], asleep', m);
    assert after == if pcs[w].m == m then before + {w} else before;
    assert Sleepers(pcs[t := next], asleep', m) <= Sleepers(pcs, asleep, m);
  }

  lemma SendKeepsCovered(c: Config, s: State, t: Tid, a: SendAct, m: Mid)
    requires t in s.pcs && CanSend(c, s, s.pcs[t], a) && WakeInv(s) && m in s.queues
    ensures Covered(s.pcs[t := SendPc(c, s, s.pcs[t], a)], if a.Notify? then s.asleep - {a.w} else s.asleep,
                    |SendQueues(c, s, s.pcs[t], a)[m]|, m)
  {
    assert Covered(s.pcs, s.asleep, |s.queues[m]|, m);
    assert WaitersOk(s.pcs, s.asleep);
    var next := SendPc(c, s, s.pcs[t], a);
    hide Covered;
    if a.Notify? {
      CoveredNotify(s.pcs, s.asleep, |s.queues[m]|, t, next, a.w, m);
    } else if a.NotifyNone? && s.pcs[t].st.m == m {
      NobodyCovers(s.pcs[t := next], s.asleep, |s.queues[m]|, m);
    } else {
      CoveredMove(s.pcs, s.asleep, |s.queues[m]|, t, next, s.asleep, |SendQueues(c, s, s.pcs[t], a)[m]|, m);
    }
  }

  lemma NobodyCovers(pcs: map<Tid, PC>, asleep: set<Tid>, length: nat, m: Mid)
    requires forall w :: w in asleep ==> !Sleeps(pcs, asleep, w, m)
    ensures Covered(pcs, asleep, length, m)
  {
  }

  lemma EmptyCovered(pcs: map<Tid, PC>, asleep: set<Tid>, m: Mid)
    ensures Covered(pcs, asleep, 0, m)
  {
  }

  lemma RecvKeepsCovered(c: Config, s: State, t: Tid, a: RecvAct, m: Mid)
    requires t in s.pcs && CanRecv(c, s, t, s.pcs[t], a) && WakeInv(s) && m in s.queues
    requires SeenOk(c, s.queues, s.pcs[t])
    ensures var s' := DoRecv(c, s, t, s.pcs[t], a); Covered(s'.pcs, s'.asleep, |s'.queues[m]|, m)
  {
    assert Covered(s.pcs, s.asleep, |s.queues[m]|, m);
    var s' := DoRecv(c, s, t, s.pcs[t], a);
    hide Covered;
    if s.queues[m] == [] && !a.Pop? {
      EmptyCovered(s'.pcs, s'.asleep, m);
    } else if a.Sleep? {
      OtherSleeper(s.pcs, s.asleep, |s.queues[m]|, t, s'.pcs[t], m);
    } else {
      CoveredMove(s.pcs, s.asleep, |s.queues[m]|, t, RecvPc(c, s, t, s.pcs[t], a), s'.asleep, |s'.queues[m]|, m);
    }
  }

  /** A thread that goes to sleep on another queue. */
  lemma OtherSleeper(pcs: map<Tid, PC>, asleep: set<Tid>, length: nat, t: Tid, next: PC, m: Mid)
    requires t in pcs && Covered(pcs, asleep, length, m)
    requires pcs[t].Recv? && pcs[t].m != m && next.Recv? && next.m != m
    ensures Covered(pcs[t := next], asleep + {t}, length, m)
  {
    TestersMove(pcs, asleep, t, next, asleep + {t}, m);
    NotifiersMove(pcs, t, next, m);
    assert Sleepers(pcs[t := next], asleep + {t}, m) <= Sleepers(pcs, asleep, m);
  }

  lemma SendKeepsWake(c: Config, s: State, t: Tid, a: SendAct)
    requires t in s.pcs && CanSend(c, s, s.pcs[t], a) && WakeInv(s)
    ensures WakeInv(DoSend(c, s, t, s.pcs[t], a))
  {
    var s' := DoSend(c, s, t, s.pcs[t], a);
    forall m: Mid {:trigger s'.queues[m]} | m in s'.queues
      ensures Covered(s'.pcs, s'.asleep, |s'.queues[m]|, m)
    {
      hide Covered;
      SendKeepsCovered(c, s, t, a, m);
    }
  }

  lemma RecvKeepsWake(c: Config, s: State, t: Tid, a: RecvAct)
    requires t in s.pcs && CanRecv(c, s, t, s.pcs[t], a) && WakeInv(s) && SeenOk(c, s.queues, s.pcs[t])
    ensures WakeInv(DoRecv(c, s, t, s.pcs[t], a))
  {
    var s' := DoRecv(c, s, t, s.pcs[t], a);
    forall m: Mid {:trigger s'.queues[m]} | m in s'.queues
      ensures Covered(s'.pcs, s'.asleep, |s'.queues[m]|, m)
    {
      hide Covered;
      RecvKeepsCovered(c, s, t, a, m);
    }
  }

  /** A step outside the queues. */
  lemma ElsewhereKeepsWake(s: State, t: Tid, next: PC)
    requires t in s.pcs && WakeInv(s)
    requires next == s.pcs[t] ||
             (!s.pcs[t].Recv? && !s.pcs[t].Sending? && !next.Recv? && !next.Sending?)
    ensures WakeInv(s.(pcs := s.pcs[t := next]))
  {
    forall m: Mid {:trigger s.queues[m]} | m in s.queues
      ensures Covered(s.pcs[t := next], s.asleep, |s.queues[m]|, m)
    {
      CoveredMove(s.pcs, s.asleep, |s.queues[m]|, t, next, s.asleep, |s.queues[m]|, m);
    }
  }

  lemma OthersKeepWake(c: Config, s: State, t: Tid, a: Act)
    requires Can(c, s, t, a) && (a.Fre? || a.Rgs? || a.Tmr?) && WakeInv(s)
    ensures WakeInv(Do(c, s, t, a))
  {
    hide WaitersOk, Covered;
    match a
    case Fre(x) => ElsewhereKeepsWake(s, t, FreePc(c, s, s.pcs[t], x));
    case Rgs(x) => ElsewhereKeepsWake(s, t, RegPc(c, s, s.pcs[t], x));
    case Tmr(x) => ElsewhereKeepsWake(s, t, TimerPc(c, s, t, s.pcs[t], x));
  }

  lemma SendWakes(c: Config, s: State, t: Tid, pc: PC, a: SendAct)
    requires CanSend(c, s, pc, a)
    ensures DoSend(c, s, t, pc, a).asleep == if a.Notify? then s.asleep - {a.w} else s.asleep
    ensures a.Notify? ==> pc.Sending? && pc.st.Pushed? && Sleeps(s.pcs, s.asleep, a.w, pc.st.m)
  {
    hide SendPc, SendQueues, SendFree, SendHeap, SendPlace, SendLog, Sleeps;
  }

  lemma RecvWakes(c: Config, s: State, t: Tid, pc: PC, a: RecvAct)
    requires CanRecv(c, s, t, pc, a)
    ensures s.asleep - {t} <= DoRecv(c, s, t, pc, a).asleep
  {
    hide CanRecv, RecvPc;
  }

  /** notify_one wakes one thread at most, and one that waits for the queue in question; no step wakes two. */
  lemma WakesOne(c: Config, s: State, t: Tid, a: Act, u: Tid, w: Tid)
    requires Can(c, s, t, a) && u in s.asleep - Do(c, s, t, a).asleep && w in s.asleep - Do(c, s, t, a).asleep
    ensures u == w
    ensures u == t || (a == Snd(Notify(u)) && s.pcs[t].Sending? && s.pcs[t].st.Pushed?
                       && Sleeps(s.pcs, s.asleep, u, s.pcs[t].st.m))
  {
    hide CanSend, CanRecv, CanFree, CanReg, CanTimer, DoSend, DoRecv, DoFree, DoRegister, TimerPc, NextTimers, Sleeps;
    match a
    case Snd(x) => SendWakes(c, s, t, s.pcs[t], x);
    case Rcv(x) => RecvWakes(c, s, t, s.pcs[t], x);
    case Fre(x) => FreeMoves(c, s, t, s.pcs[t], x);
    case Rgs(x) => RegMoves(c, s, t, s.pcs[t], x);
    case Tmr(_) =>
  }
}

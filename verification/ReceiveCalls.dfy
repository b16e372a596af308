/** What pop, popWait and tryPop promise over a whole call, whatever the other threads do. */
module ReceiveCalls {
  import opened Messages
  import opened Threads
  import opened System
  import opened Monitor
  import opened Invariant
  import opened Linearization

  /** Thread t has begun a call on mailbox m's queue at step i and not left it before step n. */
  ghost predicate InCall(steps: seq<Step>, t: Tid, m: Mid, mode: Mode, i: nat, n: nat) {
    && i < n <= |steps| && steps[i] == Step(t, Rcv(StartRecv(m, mode)))
    && forall j :: i < j < n ==> steps[j] != Step(t, Rcv(LeaveR))
  }

  /** How often thread t does a in steps i to n. */
  function Times(steps: seq<Step>, t: Tid, a: RecvAct, i: nat, n: nat): nat
    requires n <= |steps|
  {
    if n <= i then 0 else Times(steps, t, a, i, n - 1) + One(steps[n - 1] == Step(t, Rcv(a)))
  }

  datatype Done = Done(pops: nat, giveUps: nat, sleeps: nat, timeouts: nat)

  function DoneBy(steps: seq<Step>, t: Tid, i: nat, n: nat): Done
    requires n <= |steps|
  {
    Done(Times(steps, t, Pop, i, n), Times(steps, t, GiveUp, i, n),
         Times(steps, t, Sleep, i, n), Times(steps, t, Timeout, i, n))
  }

  function Then(d: Done, a: RecvAct): Done {
    Done(d.pops + One(a == Pop), d.giveUps + One(a == GiveUp),
         d.sleeps + One(a == Sleep), d.timeouts + One(a == Timeout))
  }

  predicate Expired(rs: RStage) {
    (rs.RTest? || rs.RSaw? || rs.RWait?) && rs.expired
  }

  /** How far a call has got, and what it has done so far. */
  predicate Tally(pc: PC, m: Mid, mode: Mode, d: Done) {
    && pc.Recv? && pc.m == m && pc.mode == mode
    && d.pops + d.giveUps == One(pc.rs.RLeave?)
    && (d.giveUps > 0 ==> mode.Try? || (mode.Timed? && d.timeouts > 0))
    && (mode.Try? ==> d.sleeps == 0)
    && (!pc.rs.RLeave? ==> (Expired(pc.rs) <==> d.timeouts > 0))
    && (d.timeouts > 0 ==> mode.Timed?)
  }

  lemma OwnTally(c: Config, s: State, t: Tid, a: RecvAct, m: Mid, mode: Mode, d: Done)
    requires t in s.pcs && CanRecv(c, s, t, s.pcs[t], a) && Tally(s.pcs[t], m, mode, d) && a != LeaveR
    ensures Tally(RecvPc(c, s, t, s.pcs[t], a), m, mode, Then(d, a))
  {
  }

  /** A thread in such a call takes no other kind of step; a timer expiry leaves it where it is. */
  lemma OnlyReceives(c: Config, s: State, t: Tid, a: Act)
    requires Can(c, s, t, a) && s.pcs[t].Recv?
    ensures a.Rcv? || NextPc(c, s, t, a) == s.pcs[t]
  {
  }

  lemma StepTally(c: Config, s: State, u: Tid, a: Act, t: Tid, m: Mid, mode: Mode, d: Done)
    requires Can(c, s, u, a) && t in s.pcs && Tally(s.pcs[t], m, mode, d) && Step(u, a) != Step(t, Rcv(LeaveR))
    ensures t in Do(c, s, u, a).pcs
    ensures Tally(Do(c, s, u, a).pcs[t], m, mode, if u == t && a.Rcv? then Then(d, a.r) else d)
  {
    OneThreadMoves(c, s, u, a);
    if u == t {
      OnlyReceives(c, s, t, a);
      if a.Rcv? {
        OwnTally(c, s, t, a.r, m, mode, d);
      }
    }
    hide Tally, CanSend, CanRecv, CanFree, CanReg, CanTimer, DoSend, DoRecv, DoFree, DoRegister, DoTimers;
  }

  lemma CallBegins(c: Config, s: State, t: Tid, m: Mid, mode: Mode)
    requires Can(c, s, t, Rcv(StartRecv(m, mode)))
    ensures t in Do(c, s, t, Rcv(StartRecv(m, mode))).pcs
    ensures Tally(Do(c, s, t, Rcv(StartRecv(m, mode))).pcs[t], m, mode, Done(0, 0, 0, 0))
  {
  }

  lemma NothingYet(steps: seq<Step>, t: Tid, m: Mid, mode: Mode, i: nat)
    requires i < |steps| && steps[i] == Step(t, Rcv(StartRecv(m, mode)))
    ensures DoneBy(steps, t, i, i + 1) == Done(0, 0, 0, 0)
  {
    assert Times(steps, t, Pop, i, i + 1) == Times(steps, t, Pop, i, i);
    assert Times(steps, t, GiveUp, i, i + 1) == Times(steps, t, GiveUp, i, i);
    assert Times(steps, t, Sleep, i, i + 1) == Times(steps, t, Sleep, i, i);
    assert Times(steps, t, Timeout, i, i + 1) == Times(steps, t, Timeout, i, i);
  }

  lemma {:induction false} CallTally(c: Config, ss: seq<State>, steps: seq<Step>, t: Tid, m: Mid, mode: Mode,
                                     i: nat, n: nat)
    requires Run(c, ss, steps) && InCall(steps, t, m, mode, i, n)
    ensures t in ss[n].pcs && Tally(ss[n].pcs[t], m, mode, DoneBy(steps, t, i, n))
  {
    hide Can, Do, Tally;
    assert Can(c, ss[n - 1], steps[n - 1].t, steps[n - 1].a);
    assert ss[n - 1 + 1] == Do(c, ss[n - 1], steps[n - 1].t, steps[n - 1].a);
    if n == i + 1 {
      CallBegins(c, ss[i], t, m, mode);
      NothingYet(steps, t, m, mode, i);
    } else {
      CallTally(c, ss, steps, t, m, mode, i, n - 1);
      StepTally(c, ss[n - 1], steps[n - 1].t, steps[n - 1].a, t, m, mode, DoneBy(steps, t, i, n - 1));
    }
  }

  /**
   * A call ends with one element taken or with none. pop always takes one, popWait comes back without one only after its
   * time has run out, and tryPop never waits.
   */
  lemma CallEnds(c: Config, ss: seq<State>, steps: seq<Step>, t: Tid, m: Mid, mode: Mode, i: nat, n: nat)
    requires Run(c, ss, steps) && InCall(steps, t, m, mode, i, n) && n < |steps| && steps[n] == Step(t, Rcv(LeaveR))
    ensures Times(steps, t, Pop, i, n) + Times(steps, t, GiveUp, i, n) == 1
    ensures mode.Blocking? ==> Times(steps, t, Pop, i, n) == 1
    ensures mode.Timed? && Times(steps, t, Pop, i, n) == 0 ==> Times(steps, t, Timeout, i, n) > 0
    ensures mode.Try? ==> Times(steps, t, Sleep, i, n) == 0
  {
    CallTally(c, ss, steps, t, m, mode, i, n);
    assert Can(c, ss[n], t, Rcv(LeaveR));
    hide Run, Times;
  }

  /** Only pop and popWait wait, on an empty queue, and popWait not again once its time has run out. */
  lemma WaitsOnlyForElements(c: Config, ss: seq<State>, steps: seq<Step>, t: Tid, m: Mid, mode: Mode, i: nat, n: nat)
    requires Run(c, ss, steps) && Init(c, ss[0]) && InCall(steps, t, m, mode, i, n)
    requires n < |steps| && steps[n] == Step(t, Rcv(Sleep))
    ensures m in ss[n].queues && ss[n].queues[m] == []
    ensures !mode.Try? && Times(steps, t, Timeout, i, n) == 0
  {
    CallTally(c, ss, steps, t, m, mode, i, n);
    SeenInRun(c, ss, steps, n);
    QueueThere(c, ss, steps, m, n);
    assert Can(c, ss[n], t, Rcv(Sleep));
    hide Run, Times, Init, Do;
  }

  lemma QueueThere(c: Config, ss: seq<State>, steps: seq<Step>, m: Mid, n: nat)
    requires Run(c, ss, steps) && Init(c, ss[0]) && n <= |steps| && m in c.caps
    ensures m in ss[n].queues
  {
    hide Run, Init;
    QueueLinearizable(c, ss, steps, m, n);
  }
}

/** A call takes effect once, with the arguments it was made with, whatever the other threads do. */
module CallEffects {
  import opened Messages
  import opened Receiver
  import opened Threads
  import opened System
  import opened Broadcast
  import opened Invariant

  /** The calls that change the shared state in one critical section of the mailbox or the timer mutex. */
  datatype Call =
    | Broadcasts(lab: Label, data: Option<seq<Byte>>)
    | Registers(lab: Label, m: Mid, add: bool)
    | Times(top: TimerOp)

  function Begin(call: Call): Act {
    match call
    case Broadcasts(l, d) => Snd(Start(l, d))
    case Registers(l, m, add) => Rgs(StartReg(l, m, add))
    case Times(top) => Tmr(StartTim(top))
  }

  /** The step that carries the call out. A broadcast fixes there which slots it serves, or is rejected. */
  predicate Effect(call: Call, a: Act) {
    match call
    case Broadcasts(_, _) => a == Snd(Lock) || a == Snd(LockReject)
    case Registers(_, _, _) => a == Rgs(DoReg)
    case Times(_) => a == Tmr(DoTimer)
  }

  predicate Within(pc: PC, call: Call) {
    match call
    case Broadcasts(l, d) => (pc.SWant? || pc.SRejected? || pc.Sending?) && pc.op == SendOp(l, d, User)
    case Registers(l, m, add) => pc.Reg? && pc.lab == l && pc.m == m && pc.add == add
    case Times(top) => pc.Tim? && pc.top == top
  }

  predicate Past(pc: PC) {
    pc.SRejected? || pc.Sending? || (pc.Reg? && pc.gs.LeaveG?) || (pc.Tim? && pc.ts.LeaveT?)
  }

  /** What the call does to the state in that step. */
  ghost predicate Happens(c: Config, s: State, s': State, call: Call) {
    match call
    case Broadcasts(l, d) =>
      var op := SendOp(l, d, User);
      && s'.slots == s.slots && l in s.slots
      && s'.log == if TooLarge(c, op) then s.log else s.log + [SendRec(op, s.slots[l], [], None)]
    case Registers(l, m, add) =>
      l in s.slots && s'.slots == s.slots[l := if add then AddSlot(s.slots[l], m) else RemoveSlot(s.slots[l], m)]
    case Times(StartTimer(l, oneShot)) => s'.tm == StartIn(s.tm, l, oneShot)
    case Times(CancelTimer(l)) => s'.tm == CancelIn(s.tm, l)
  }

  /** Thread t has made the call at step i and not returned from it before step n. */
  ghost predicate InCall(ss: seq<State>, steps: seq<Step>, t: Tid, call: Call, i: nat, n: nat) {
    && i < n <= |steps| < |ss| && steps[i] == Step(t, Begin(call))
    && forall j :: i < j <= n ==> t in ss[j].pcs && !ss[j].pcs[t].Idle?
  }

  /** How often thread t carries the call out in steps i to n. */
  function Effects(steps: seq<Step>, t: Tid, call: Call, i: nat, n: nat): nat
    requires n <= |steps|
  {
    if n <= i then 0
    else Effects(steps, t, call, i, n - 1) + One(steps[n - 1].t == t && Effect(call, steps[n - 1].a))
  }

  lemma OwnStep(c: Config, s: State, t: Tid, a: Act, call: Call)
    requires Can(c, s, t, a) && Within(s.pcs[t], call) && !NextPc(c, s, t, a).Idle?
    ensures Within(NextPc(c, s, t, a), call)
    ensures One(Past(NextPc(c, s, t, a))) == One(Past(s.pcs[t])) + One(Effect(call, a))
  {
    hide MboxFree, QueueFree, TimerFree, Sleeps;
  }

  lemma FirstStep(c: Config, s: State, t: Tid, call: Call)
    requires Can(c, s, t, Begin(call))
    ensures Within(NextPc(c, s, t, Begin(call)), call) && !Past(NextPc(c, s, t, Begin(call)))
    ensures !Effect(call, Begin(call))
  {
  }

  lemma LastStep(c: Config, s: State, t: Tid, a: Act, call: Call)
    requires Can(c, s, t, a) && Within(s.pcs[t], call) && NextPc(c, s, t, a).Idle?
    ensures Past(s.pcs[t]) && !Effect(call, a)
    ensures a == Snd(Finish) || !s.pcs[t].Sending?
  {
    hide MboxFree, QueueFree, TimerFree, Sleeps;
  }

  lemma StepHappens(c: Config, s: State, t: Tid, a: Act, call: Call)
    requires Can(c, s, t, a) && Within(s.pcs[t], call) && Effect(call, a)
    requires forall l: Label :: l in s.slots
    ensures Happens(c, s, Do(c, s, t, a), call)
  {
    hide MboxFree, QueueFree, TimerFree, Sleeps, StartIn, CancelIn;
  }

  lemma {:induction false} StaysWithin(c: Config, ss: seq<State>, steps: seq<Step>, t: Tid, call: Call, i: nat, n: nat)
    requires Run(c, ss, steps) && InCall(ss, steps, t, call, i, n)
    ensures Within(ss[n].pcs[t], call) && Effects(steps, t, call, i, n) == One(Past(ss[n].pcs[t]))
  {
    hide Can, Do, NextPc, Within, Past, Effect;
    Moved(c, ss, steps, n - 1);
    if n == i + 1 {
      FirstStep(c, ss[i], t, call);
      assert Effects(steps, t, call, i, n) == Effects(steps, t, call, i, i);
    } else {
      StaysWithin(c, ss, steps, t, call, i, n - 1);
      if steps[n - 1].t == t {
        OwnStep(c, ss[n - 1], t, steps[n - 1].a, call);
      }
    }
  }

  lemma Moved(c: Config, ss: seq<State>, steps: seq<Step>, k: nat)
    requires Run(c, ss, steps) && k < |steps|
    ensures Can(c, ss[k], steps[k].t, steps[k].a) && ss[k + 1] == Do(c, ss[k], steps[k].t, steps[k].a)
    ensures ss[k + 1].pcs == ss[k].pcs[steps[k].t := NextPc(c, ss[k], steps[k].t, steps[k].a)]
    ensures steps[k].t in ss[k].pcs
  {
    hide Can, Do, NextPc;
    OneThreadMoves(c, ss[k], steps[k].t, steps[k].a);
  }

  /**
   * From the step that makes a call to the step that returns from it the call is carried out exactly once, with its
   * arguments.
   */
  lemma CallHappensOnce(c: Config, ss: seq<State>, steps: seq<Step>, t: Tid, call: Call, i: nat, n: nat)
    requires Run(c, ss, steps) && Reachable(c, ss[0]) && InCall(ss, steps, t, call, i, n)
    requires n < |steps| && t in ss[n + 1].pcs && ss[n + 1].pcs[t].Idle?
    ensures Effects(steps, t, call, i, n + 1) == 1
    ensures forall j :: i < j <= n && steps[j].t == t && Effect(call, steps[j].a) ==> Happens(c, ss[j], ss[j + 1], call)
  {
    hide Reachable, Within, Past, Effect, Happens, NextPc, Can, Do;
    StaysWithin(c, ss, steps, t, call, i, n);
    Moved(c, ss, steps, n);
    forall j | i < j <= n && steps[j].t == t && Effect(call, steps[j].a)
      ensures Happens(c, ss[j], ss[j + 1], call)
    {
      StaysWithin(c, ss, steps, t, call, i, j);
      Moved(c, ss, steps, j);
      LabelsThere(c, ss, steps, j);
      StepHappens(c, ss[j], t, steps[j].a, call);
    }
    LastStep(c, ss[n], t, steps[n].a, call);
  }

  /** A broadcast that is not rejected comes back with the last record of the log, and with its answer. */
  lemma BroadcastAnswered(c: Config, ss: seq<State>, steps: seq<Step>, t: Tid, l: Label, d: Option<seq<Byte>>,
                          i: nat, n: nat)
    requires Run(c, ss, steps) && Reachable(c, ss[0]) && InCall(ss, steps, t, Broadcasts(l, d), i, n)
    requires n < |steps| && steps[n] == Step(t, Snd(Finish))
    ensures var log := ss[n + 1].log;
            && 0 < |log| && log[|log| - 1].op == SendOp(l, d, User) && log[|log| - 1].ret.Some?
  {
    hide Reachable, Inv, Can, Do, NextPc;
    StaysWithin(c, ss, steps, t, Broadcasts(l, d), i, n);
    Moved(c, ss, steps, n);
    ReachableInv(c, ss[0]);
    RunKeepsInv(c, ss, steps, n);
    FinishAnswers(c, ss[n], t);
  }

  lemma FinishAnswers(c: Config, s: State, t: Tid)
    requires Inv(c, s) && Can(c, s, t, Snd(Finish))
    ensures s.pcs[t].Sending?
    ensures var log := Do(c, s, t, Snd(Finish)).log;
            0 < |log| && log[|log| - 1].op == s.pcs[t].op && log[|log| - 1].ret == Some(s.pcs[t].ok)
  {
    hide Inv;
    SenderFacts(c, s, t);
  }

  lemma LabelsThere(c: Config, ss: seq<State>, steps: seq<Step>, k: nat)
    requires Run(c, ss, steps) && Reachable(c, ss[0]) && k <= |steps|
    ensures forall l: Label :: l in ss[k].slots
  {
    hide Reachable, Inv;
    ReachableInv(c, ss[0]);
    RunKeepsInv(c, ss, steps, k);
    AllLabels(c, ss[k]);
  }

  lemma AllLabels(c: Config, s: State)
    requires Inv(c, s)
    ensures forall l: Label :: l in s.slots
  {
  }
}

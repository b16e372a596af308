/**
 * Every interleaving of threads acts on a queue, and on a label's slots, like one sequence of whole calls:
 * the calls that Queue and Receivers are proved to carry out.
 */
module Linearization {
  import opened Messages
  import opened Threads
  import opened System
  import Q = Queues
  import R = Receiver
  import opened Broadcast
  import opened Monitor
  import opened Invariant

  // Queues ------------------------------------------------------------------------------------------

  /** The entry an emplace adds; the broadcast in progress is the last one of the log. */
  function NewEntry(s: State, pc: PC): Entry
    requires pc.Sending? && pc.st.Tested?
  {
    EntryOf(pc.op, pc.st.d, if |s.log| > 0 then |s.log| - 1 else 0, pc.i)
  }

  /** The critical section of m's queue that a step carries out: an emplace, or a pop in any of its three forms. */
  ghost function CallOn(c: Config, s: State, t: Tid, a: Act, m: Mid): Option<Q.Op<Entry>>
    requires Can(c, s, t, a)
  {
    var pc := s.pcs[t];
    if a.Snd? && (a.s.Push? || a.s.Refuse?) && pc.st.m == m then Some(Q.Op.Put(NewEntry(s, pc)))
    else if a.Rcv? && (a.r.Pop? || a.r.GiveUp?) && pc.m == m then Some(Q.Op.Get)
    else None
  }

  /** The calls on m's queue in the first k steps, in the order of their critical sections. */
  ghost function CallsOn(c: Config, ss: seq<State>, steps: seq<Step>, m: Mid, k: nat): seq<Q.Op<Entry>>
    requires Run(c, ss, steps) && k <= |steps|
  {
    if k == 0 then []
    else
      var call := CallOn(c, ss[k - 1], steps[k - 1].t, steps[k - 1].a, m);
      var before := CallsOn(c, ss, steps, m, k - 1);
      if call.Some? then before + [call.value] else before
  }

  /** What the thread is told: the element went in, or an element came out. */
  predicate Granted(a: Act) {
    a == Snd(Push) || a == Rcv(Pop)
  }

  /**
   * From s to s' queue m and its history change as one call changes them, or not at all, and the answer the call gives
   * is the one the whole call would have given.
   */
  ghost predicate Acts(c: Config, s: State, s': State, call: Option<Q.Op<Entry>>, served: bool, m: Mid)
    requires m in c.caps && m in s.queues && m in s.popped
  {
    var q := s.queues[m];
    && m in s'.queues && m in s'.popped
    && (call.None? ==> s'.queues[m] == q && s'.popped[m] == s.popped[m])
    && (call.Some? && call.value.Put? ==>
          && s'.queues[m] == Q.EmplacedOn(q, c.caps[m], call.value.x) && s'.popped[m] == s.popped[m]
          && (served <==> |q| < c.caps[m]))
    && (call.Some? && call.value.Get? ==>
          && s'.queues[m] == Q.PoppedFrom(q)
          && s'.popped[m] == (if q == [] then s.popped[m] else s.popped[m] + [q[0]])
          && (served <==> q != []))
  }

  lemma SendActs(c: Config, s: State, t: Tid, a: SendAct, m: Mid)
    requires t in s.pcs && CanSend(c, s, s.pcs[t], a) && SeenOk(c, s.queues, s.pcs[t])
    requires m in c.caps && m in s.queues && m in s.popped
    ensures Acts(c, s, DoSend(c, s, t, s.pcs[t], a), CallOn(c, s, t, Snd(a), m), Granted(Snd(a)), m)
  {
  }

  lemma RecvActs(c: Config, s: State, t: Tid, a: RecvAct, m: Mid)
    requires t in s.pcs && CanRecv(c, s, t, s.pcs[t], a) && SeenOk(c, s.queues, s.pcs[t])
    requires m in c.caps && m in s.queues && m in s.popped
    ensures Acts(c, s, DoRecv(c, s, t, s.pcs[t], a), CallOn(c, s, t, Rcv(a), m), Granted(Rcv(a)), m)
  {
  }

  lemma StepActs(c: Config, s: State, t: Tid, a: Act, m: Mid)
    requires Can(c, s, t, a) && SeenOk(c, s.queues, s.pcs[t]) && m in c.caps && m in s.queues && m in s.popped
    ensures Acts(c, s, Do(c, s, t, a), CallOn(c, s, t, a, m), Granted(a), m)
  {
    hide CanSend, CanRecv, CanFree, CanReg, CanTimer, SeenOk;
    match a
    case Snd(x) => SendActs(c, s, t, x, m);
    case Rcv(x) => RecvActs(c, s, t, x, m);
    case Fre(_) =>
    case Rgs(_) =>
    case Tmr(_) =>
  }

  /**
   * The queue mutex keeps test and change together: what a thread has seen of a queue still holds when it acts on it,
   * in every state of every run.
   */
  lemma SeenInRun(c: Config, ss: seq<State>, steps: seq<Step>, k: nat)
    requires Run(c, ss, steps) && Init(c, ss[0]) && k < |steps|
    ensures Can(c, ss[k], steps[k].t, steps[k].a) && ss[k + 1] == Do(c, ss[k], steps[k].t, steps[k].a)
    ensures SeenOk(c, ss[k].queues, ss[k].pcs[steps[k].t])
  {
    InitInv(c, ss[0]);
    hide Inv, Init, SeenOk, MonitorInv, Do;
    RunKeepsInv(c, ss, steps, k);
    MonitorOf(c, ss[k]);
    SeenHere(c, ss[k], steps[k].t);
  }

  /** The queue is linearizable: a run leaves the queue and the popped values of its calls, carried out one by one. */
  lemma {:induction false} QueueLinearizable(c: Config, ss: seq<State>, steps: seq<Step>, m: Mid, k: nat)
    requires Run(c, ss, steps) && Init(c, ss[0]) && k <= |steps| && m in c.caps
    ensures m in ss[k].queues && m in ss[k].popped
    ensures var r := Q.Perform(CallsOn(c, ss, steps, m, k), c.caps[m]);
            ss[k].queues[m] == r.elements && ss[k].popped[m] == r.given
  {
    if k == 0 {
    } else {
      QueueLinearizable(c, ss, steps, m, k - 1);
      var s, t, a := ss[k - 1], steps[k - 1].t, steps[k - 1].a;
      SeenInRun(c, ss, steps, k - 1);
      assert ss[k - 1 + 1] == Do(c, s, t, a);
      hide Can, Do, Run, Init, CallOn, Granted, SeenOk, Q.Perform, Q.EmplacedOn, Q.PoppedFrom;
      StepActs(c, s, t, a, m);
      if CallOn(c, s, t, a, m).Some? {
        Q.PerformNext(CallsOn(c, ss, steps, m, k - 1), CallOn(c, s, t, a, m).value, c.caps[m]);
      }
    }
  }

  /** Accepted values are the popped ones and then the queued ones, and the queue keeps to its capacity. */
  lemma QueueFifo(c: Config, ss: seq<State>, steps: seq<Step>, m: Mid, k: nat)
    requires Run(c, ss, steps) && Init(c, ss[0]) && k <= |steps| && m in c.caps
    ensures m in ss[k].queues && m in ss[k].popped && |ss[k].queues[m]| <= c.caps[m]
    ensures Q.Perform(CallsOn(c, ss, steps, m, k), c.caps[m]).accepted == ss[k].popped[m] + ss[k].queues[m]
  {
    QueueLinearizable(c, ss, steps, m, k);
    Q.BoundedFifo(CallsOn(c, ss, steps, m, k), c.caps[m]);
  }

  /**
   * Every answer is that of the sequential queue: emplace succeeds if and only if the queue of all earlier calls has
   * room, and pop, popWait and tryPop come back with an element if and only if it is not empty.
   */
  lemma AnswersMatch(c: Config, ss: seq<State>, steps: seq<Step>, m: Mid, k: nat)
    requires Run(c, ss, steps) && Init(c, ss[0]) && k < |steps| && m in c.caps
    ensures Can(c, ss[k], steps[k].t, steps[k].a)
    ensures var call := CallOn(c, ss[k], steps[k].t, steps[k].a, m);
            var q := Q.Perform(CallsOn(c, ss, steps, m, k), c.caps[m]).elements;
            && (call.Some? && call.value.Put? ==> (steps[k].a == Snd(Push) <==> |q| < c.caps[m]))
            && (call.Some? && call.value.Get? ==> (steps[k].a == Rcv(Pop) <==> q != []))
  {
    QueueLinearizable(c, ss, steps, m, k);
    SeenInRun(c, ss, steps, k);
    StepActs(c, ss[k], steps[k].t, steps[k].a, m);
    hide Run, Init, Do, SeenOk, Q.Perform, Q.EmplacedOn, Q.PoppedFrom;
  }

  /** emplace is refused only in a state whose queue is exactly full, and changes no queue then. */
  lemma RefusedOnlyWhenFull(c: Config, ss: seq<State>, steps: seq<Step>, k: nat)
    requires Run(c, ss, steps) && Init(c, ss[0]) && k < |steps| && steps[k].a == Snd(Refuse)
    ensures Can(c, ss[k], steps[k].t, Snd(Refuse))
    ensures var m := ss[k].pcs[steps[k].t].st.m;
            |ss[k].queues[m]| == c.caps[m] && ss[k + 1].queues == ss[k].queues
  {
    SeenInRun(c, ss, steps, k);
    QueueFifo(c, ss, steps, ss[k].pcs[steps[k].t].st.m, k);
    hide Run, Init;
  }

  // Receiver slots ----------------------------------------------------------------------------------

  /** The registration call that a step carries out under the mailbox mutex. */
  ghost function Registration(c: Config, s: State, t: Tid, a: Act): Option<R.Call<Mid>>
    requires Can(c, s, t, a)
  {
    var pc := s.pcs[t];
    if a != Rgs(DoReg) then None
    else Some(if pc.add then R.Register(pc.lab, pc.m) else R.Unregister(pc.lab, pc.m))
  }

  ghost function Registrations(c: Config, ss: seq<State>, steps: seq<Step>, k: nat): seq<R.Call<Mid>>
    requires Run(c, ss, steps) && k <= |steps|
  {
    if k == 0 then []
    else
      var call := Registration(c, ss[k - 1], steps[k - 1].t, steps[k - 1].a);
      var before := Registrations(c, ss, steps, k - 1);
      if call.Some? then before + [call.value] else before
  }

  lemma StepRegisters(c: Config, s: State, t: Tid, a: Act, l: Label)
    requires Can(c, s, t, a) && l in s.slots
    ensures var s' := Do(c, s, t, a);
            var call := Registration(c, s, t, a);
            && l in s'.slots
            && s'.slots[l] ==
               if call.None? || call.value.lab != l then s.slots[l]
               else if call.value.Register? then R.AddSlot(s.slots[l], call.value.m)
               else R.RemoveSlot(s.slots[l], call.value.m)
  {
    hide CanSend, CanRecv, CanFree, CanTimer;
    match a
    case Snd(_) =>
    case Rcv(_) =>
    case Fre(_) =>
    case Rgs(_) =>
    case Tmr(_) =>
  }

  /**
   * In every run each label's slots hold, as a multiset, the registrations made so far and not undone,
   * cut off at MAX_RECEIVERS.
   */
  lemma {:induction false} SlotsLinearizable(c: Config, ss: seq<State>, steps: seq<Step>, l: Label, k: nat)
    requires Run(c, ss, steps) && Init(c, ss[0]) && k <= |steps|
    ensures l in ss[k].slots && ss[k].slots[l] == R.SlotsAfter(c.maxReceivers, Registrations(c, ss, steps, k), l)
    ensures R.Registered(ss[k].slots[l]) == R.BagAfter(c.maxReceivers, Registrations(c, ss, steps, k), l)
  {
    if k == 0 {
    } else {
      SlotsLinearizable(c, ss, steps, l, k - 1);
      var s, t, a := ss[k - 1], steps[k - 1].t, steps[k - 1].a;
      assert Can(c, s, t, a) && ss[k - 1 + 1] == Do(c, s, t, a);
      hide Can, Do, Run, Init, Registration;
      StepRegisters(c, s, t, a, l);
      if Registration(c, s, t, a).Some? {
        var calls := Registrations(c, ss, steps, k);
        assert calls[..|calls| - 1] == Registrations(c, ss, steps, k - 1);
      }
    }
    R.SlotsRefineBag(c.maxReceivers, Registrations(c, ss, steps, k), l);
  }
}

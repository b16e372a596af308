/** When SendMessage is certain to return true, whatever the other threads do meanwhile. */
module Guarantee {
  import opened Messages
  import opened Threads
  import opened System
  import opened Locks
  import opened Broadcast
  import opened Ownership
  import opened Payload
  import opened Pools
  import opened History
  import opened Wakeup
  import opened TimerTable
  import opened Invariant
  import opened Sequential
  import opened Monitor
  import opened Leaks

  /** Occupied slots from position i on. */
  function OccupiedFrom(slots: seq<Option<Mid>>, i: nat): int {
    if i >= |slots| then 0 else Occupied(slots, |slots|) - Occupied(slots, i)
  }

  /** Slots from position i on that hold mailbox m. */
  ghost function WantedFrom(slots: seq<Option<Mid>>, m: Mid, i: nat): int {
    if i >= |slots| then 0 else Wanted(slots, |slots|, m) - Wanted(slots, i, m)
  }

  lemma {:induction false} LeftAt(slots: seq<Option<Mid>>, m: Mid, i: nat)
    ensures OccupiedFrom(slots, i) >= 0 && WantedFrom(slots, m, i) >= 0
    ensures i < |slots| ==> OccupiedFrom(slots, i) == (if slots[i].Some? then 1 else 0) + OccupiedFrom(slots, i + 1)
    ensures i < |slots| ==>
              WantedFrom(slots, m, i) == (if slots[i] == Some(m) then 1 else 0) + WantedFrom(slots, m, i + 1)
    decreases |slots| - i
  {
    if i >= |slots| {
    } else {
      LeftAt(slots, m, i + 1);
    }
  }

  /** Room for every copy still to be queued, slots before from being done. */
  ghost predicate Room(c: Config, queues: map<Mid, seq<Entry>>, slots: seq<Option<Mid>>, from: nat) {
    forall m {:trigger queues[m]} :: m in queues && m in c.caps ==> |queues[m]| + WantedFrom(slots, m, from) <= c.caps[m]
  }

  predicate HasBlockNow(st: Stage) {
    !st.AtSlot? && !st.Checked? && !st.Got?
  }

  /** The first slot that still needs a block, and the first that still needs a place in its queue. */
  function NeedsBlock(pc: PC): nat
    requires pc.Sending?
  {
    if HasBlockNow(pc.st) then pc.i + 1 else pc.i
  }

  /** A broadcast of data that has lost nothing and has all it needs for the rest. */
  ghost predicate Secure(c: Config, s: State, t: Tid, op: SendOp) {
    && t in s.pcs && s.pcs[t].Sending? && s.pcs[t].op == op && s.pcs[t].ok && op.data.Some? && op.lab in s.slots
    && var pc := s.pcs[t];
       var slots := s.slots[op.lab];
       && s.free.Get(PoolOf(c, pc)) >= OccupiedFrom(slots, NeedsBlock(pc))
       && Room(c, s.queues, slots, Progress(pc))
  }

  lemma RoomShrinks(c: Config, queues: map<Mid, seq<Entry>>, slots: seq<Option<Mid>>, i: nat)
    requires Room(c, queues, slots, i) && i < |slots|
    ensures Room(c, queues, slots, i + 1)
  {
    forall m {:trigger queues[m]} | m in queues && m in c.caps
      ensures |queues[m]| + WantedFrom(slots, m, i + 1) <= c.caps[m]
    {
      LeftAt(slots, m, i);
    }
  }

  lemma RoomPush(c: Config, queues: map<Mid, seq<Entry>>, slots: seq<Option<Mid>>, i: nat, m: Mid, e: Entry)
    requires Room(c, queues, slots, i) && i < |slots| && slots[i] == Some(m) && m in queues
    ensures Room(c, queues[m := queues[m] + [e]], slots, i + 1)
  {
    var queues' := queues[m := queues[m] + [e]];
    forall x {:trigger queues'[x]} | x in queues' && x in c.caps
      ensures |queues'[x]| + WantedFrom(slots, x, i + 1) <= c.caps[x]
    {
      LeftAt(slots, x, i);
    }
  }

  lemma RoomHere(c: Config, queues: map<Mid, seq<Entry>>, slots: seq<Option<Mid>>, i: nat, m: Mid)
    requires Room(c, queues, slots, i) && i < |slots| && slots[i] == Some(m) && m in queues && m in c.caps
    ensures |queues[m]| < c.caps[m]
  {
    LeftAt(slots, m, i);
    LeftAt(slots, m, i + 1);
  }

  predicate Expected(a: SendAct) {
    a != PmrFail && a != Finish && a != PutFail && a != Cleanup
  }

  lemma OwnPc(c: Config, s: State, t: Tid, op: SendOp, a: SendAct)
    requires Secure(c, s, t, op) && CanSend(c, s, s.pcs[t], a) && Expected(a)
    requires PcOk(c, s.pcs[t]) && Current(s.slots, s.log, s.pcs[t]) && SeenOk(c, s.queues, s.pcs[t])
    ensures !a.Refuse? && !a.Exhausted?
    ensures var pc := SendPc(c, s, s.pcs[t], a); pc.Sending? && pc.op == op && pc.ok
  {
    var pc, slots := s.pcs[t], s.slots[op.lab];
    if a.Refuse? {
      RoomHere(c, s.queues, slots, pc.i, pc.st.m);
    } else if a.Exhausted? {
      LeftAt(slots, 0, pc.i);
      LeftAt(slots, 0, pc.i + 1);
    }
    hide Room, OccupiedFrom;
  }

  /** Blocks taken and blocks still needed go together. */
  lemma CounterMoves(c: Config, s: State, pc: PC, a: SendAct)
    requires pc.Sending? && CanSend(c, s, pc, a) && Expected(a) && !a.Refuse? && !a.Exhausted? && pc.op.data.Some?
    requires SendPc(c, s, pc, a).Sending?
    ensures NeedsBlock(SendPc(c, s, pc, a)) == if a.Decrement? || a.Skip? then NeedsBlock(pc) + 1 else NeedsBlock(pc)
    ensures SendFree(c, s, pc, a) == if a.Decrement? then s.free.Add(PoolOf(c, pc), -1) else s.free
    ensures a.Decrement? || a.Skip? ==> NeedsBlock(pc) == pc.i
  {
  }

  lemma OwnCounter(c: Config, s: State, t: Tid, op: SendOp, a: SendAct)
    requires Secure(c, s, t, op) && CanSend(c, s, s.pcs[t], a) && Expected(a) && !a.Refuse? && !a.Exhausted?
    requires PcOk(c, s.pcs[t]) && Current(s.slots, s.log, s.pcs[t]) && SeenOk(c, s.queues, s.pcs[t])
    ensures var pc := SendPc(c, s, s.pcs[t], a);
            pc.Sending? && SendFree(c, s, s.pcs[t], a).Get(PoolOf(c, pc)) >= OccupiedFrom(s.slots[op.lab], NeedsBlock(pc))
  {
    OwnPc(c, s, t, op, a);
    CounterMoves(c, s, s.pcs[t], a);
    LeftAt(s.slots[op.lab], 0, s.pcs[t].i);
    hide Room, OccupiedFrom, SendPc, SendFree, CanSend, NeedsBlock, PcOk;
  }

  lemma OwnRoom(c: Config, s: State, t: Tid, op: SendOp, a: SendAct)
    requires Secure(c, s, t, op) && CanSend(c, s, s.pcs[t], a) && Expected(a) && !a.Refuse? && !a.Exhausted?
    requires PcOk(c, s.pcs[t]) && Current(s.slots, s.log, s.pcs[t])
    ensures var pc := SendPc(c, s, s.pcs[t], a);
            pc.Sending? && Room(c, SendQueues(c, s, s.pcs[t], a), s.slots[op.lab], Progress(pc))
  {
    var pc, slots := s.pcs[t], s.slots[op.lab];
    if a.Push? {
      RoomPush(c, s.queues, slots, pc.i, pc.st.m, EntryOf(pc.op, pc.st.d, |s.log| - 1, pc.i));
    } else if a.Skip? {
      RoomShrinks(c, s.queues, slots, pc.i);
    }
    hide Room, OccupiedFrom;
  }

  /** The sender's own steps. */
  lemma OwnStepSecure(c: Config, s: State, t: Tid, op: SendOp, a: SendAct)
    requires Secure(c, s, t, op) && CanSend(c, s, s.pcs[t], a) && Expected(a)
    requires PcOk(c, s.pcs[t]) && Current(s.slots, s.log, s.pcs[t]) && SeenOk(c, s.queues, s.pcs[t])
    ensures Secure(c, DoSend(c, s, t, s.pcs[t], a), t, op)
  {
    OwnPc(c, s, t, op, a);
    OwnCounter(c, s, t, op, a);
    OwnRoom(c, s, t, op, a);
    hide Room, OccupiedFrom, CanSend, SendPc, SendQueues, SendFree, PcOk, Current, SeenOk, NeedsBlock, Progress, PoolOf;
  }

  /** What another thread's step can do to a broadcast under way: more free blocks, shorter queues. */
  ghost predicate Harmless(s: State, s': State, t: Tid) {
    && t in s.pcs && t in s'.pcs && s'.pcs[t] == s.pcs[t] && s'.slots == s.slots
    && s.free.small <= s'.free.small && s.free.large <= s'.free.large
    && s'.queues.Keys == s.queues.Keys
    && forall m {:trigger s'.queues[m]} :: m in s.queues ==> |s'.queues[m]| <= |s.queues[m]|
  }

  lemma HarmlessSecure(c: Config, s: State, s': State, t: Tid, op: SendOp)
    requires Secure(c, s, t, op) && Harmless(s, s', t)
    ensures Secure(c, s', t, op)
  {
  }

  lemma OthersHarmless(c: Config, s: State, t: Tid, u: Tid, a: Act)
    requires t in s.pcs && HoldsMbox(s.pcs[t]) && u != t && Can(c, s, u, a) && Exclusion(s.pcs, c.handler)
    ensures Harmless(s, Do(c, s, u, a), t)
  {
    hide CanSend, CanRecv, CanFree, CanReg, CanTimer, Harmless, Exclusion;
    match a
    case Snd(x) => SendHarmless(c, s, t, u, x);
    case Rcv(x) => RecvHarmless(c, s, t, u, x);
    case Fre(x) => FreeHarmless(c, s, t, u, x);
    case Rgs(x) => RegHarmless(c, s, t, u, x);
    case Tmr(x) => TimerHarmless(c, s, t, u, x);
  }

  lemma RecvHarmless(c: Config, s: State, t: Tid, u: Tid, a: RecvAct)
    requires t in s.pcs && u in s.pcs && u != t && CanRecv(c, s, u, s.pcs[u], a)
    ensures Harmless(s, DoRecv(c, s, u, s.pcs[u], a), t)
  {
  }

  lemma FreeHarmless(c: Config, s: State, t: Tid, u: Tid, a: FreeAct)
    requires t in s.pcs && u in s.pcs && u != t && CanFree(s, s.pcs[u], a)
    ensures Harmless(s, DoFree(c, s, u, s.pcs[u], a), t)
  {
  }

  lemma RegHarmless(c: Config, s: State, t: Tid, u: Tid, a: RegAct)
    requires t in s.pcs && u in s.pcs && HoldsMbox(s.pcs[t]) && u != t
    requires CanReg(c, s, s.pcs[u], a) && Exclusion(s.pcs, c.handler)
    ensures Harmless(s, DoRegister(c, s, u, s.pcs[u], a), t)
  {
    assert !HoldsMbox(s.pcs[u]);
  }

  lemma TimerHarmless(c: Config, s: State, t: Tid, u: Tid, a: TimerAct)
    requires t in s.pcs && u in s.pcs && u != t && CanTimer(c, s, u, s.pcs[u], a)
    ensures Harmless(s, DoTimers(c, s, u, s.pcs[u], a), t)
  {
  }

  lemma SendHarmless(c: Config, s: State, t: Tid, u: Tid, a: SendAct)
    requires t in s.pcs && u in s.pcs && HoldsMbox(s.pcs[t]) && u != t
    requires CanSend(c, s, s.pcs[u], a) && Exclusion(s.pcs, c.handler)
    ensures Harmless(s, DoSend(c, s, u, s.pcs[u], a), t)
  {
    assert !HoldsMbox(s.pcs[u]);
  }

  lemma StepSecure(c: Config, s: State, t: Tid, op: SendOp, u: Tid, a: Act)
    requires Inv(c, s) && Secure(c, s, t, op) && Can(c, s, u, a)
    requires u == t ==> a != Snd(PmrFail) && a != Snd(Finish)
    ensures Secure(c, Do(c, s, u, a), t, op)
  {
    hide Inv, SendInv, MonitorInv, LeakInv, OwnInv, PayloadInv, PoolInv, HistoryInv, WakeInv, TimerInv;
    hide Secure, Harmless, PcOk, Current, SeenOk;
    SecureHolds(c, s, t, op);
    InvParts(c, s);
    if u == t {
      LocalFacts(c, s, t);
      SeenHere(c, s, t);
      PutNeverFails(c, s, t);
      if a.Snd? {
        OwnStepSecure(c, s, t, op, a.s);
      } else {
        OnlyExpiry(c, s, t, op, a);
      }
    } else {
      ExclusionHolds(c, s);
      OthersHarmless(c, s, t, u, a);
      HarmlessSecure(c, s, Do(c, s, u, a), t, op);
    }
  }

  lemma SecureHolds(c: Config, s: State, t: Tid, op: SendOp)
    requires Secure(c, s, t, op)
    ensures t in s.pcs && s.pcs[t].Sending? && HoldsMbox(s.pcs[t])
  {
  }

  lemma InvParts(c: Config, s: State)
    requires Inv(c, s)
    ensures SendInv(c, s) && PayloadInv(c, s) && MonitorInv(c, s)
  {
    hide SendInv, MonitorInv, LeakInv, OwnInv, PayloadInv, PoolInv, HistoryInv, WakeInv, TimerInv;
  }

  /** The only step attributed to a sending thread that is not its own is a timer expiry. */
  lemma OnlyExpiry(c: Config, s: State, t: Tid, op: SendOp, a: Act)
    requires Secure(c, s, t, op) && Can(c, s, t, a) && !a.Snd?
    ensures Secure(c, Do(c, s, t, a), t, op)
  {
  }

  lemma {:induction false} RunSecure(c: Config, ss: seq<State>, steps: seq<Step>, t: Tid, op: SendOp, k: nat)
    requires Run(c, ss, steps) && Inv(c, ss[0]) && Secure(c, ss[0], t, op) && k <= |steps|
    requires forall j :: 0 <= j < k && steps[j].t == t ==> steps[j].a != Snd(PmrFail) && steps[j].a != Snd(Finish)
    ensures Secure(c, ss[k], t, op)
  {
    hide Inv, Secure, Can, Do;
    if k == 0 {
    } else {
      RunSecure(c, ss, steps, t, op, k - 1);
      RunKeepsInv(c, ss, steps, k - 1);
      assert Can(c, ss[k - 1], steps[k - 1].t, steps[k - 1].a);
      assert ss[k - 1 + 1] == Do(c, ss[k - 1], steps[k - 1].t, steps[k - 1].a);
      StepSecure(c, ss[k - 1], t, op, steps[k - 1].t, steps[k - 1].a);
    }
  }

  /** Enough of everything, measured when the broadcast starts. */
  ghost predicate Supplied(c: Config, s: State, t: Tid) {
    && t in s.pcs && s.pcs[t].Sending? && s.pcs[t].i == 0 && s.pcs[t].ok && s.pcs[t].st.AtSlot?
    && s.pcs[t].op.data.Some? && s.pcs[t].op.lab in s.slots
    && var slots := s.slots[s.pcs[t].op.lab];
       && s.free.Get(PoolOf(c, s.pcs[t])) >= Occupied(slots, |slots|)
       && forall m {:trigger s.queues[m]} :: m in s.queues && m in c.caps ==>
            |s.queues[m]| + Wanted(slots, |slots|, m) <= c.caps[m]
  }

  /**
   * SendMessage returns true whenever, at its first slot, the pool has a block for every occupied slot and every
   * mailbox has room for its number of slots, and the memory resource does not fail: the mailbox mutex keeps out
   * every step of other threads that could use up blocks or room.
   */
  lemma GuaranteedDelivery(c: Config, ss: seq<State>, steps: seq<Step>, t: Tid, k: nat)
    requires Run(c, ss, steps) && Reachable(c, ss[0]) && Supplied(c, ss[0], t) && k < |steps|
    requires forall j :: 0 <= j < k && steps[j].t == t ==> steps[j].a != Snd(PmrFail) && steps[j].a != Snd(Finish)
    requires steps[k] == Step(t, Snd(Finish))
    ensures 0 < |ss[k + 1].log|
    ensures ss[k + 1].log[|ss[k + 1].log| - 1].op == ss[0].pcs[t].op
    ensures ss[k + 1].log[|ss[k + 1].log| - 1].ret == Some(true)
  {
    hide Inv, Reachable;
    ReachableInv(c, ss[0]);
    var op := ss[0].pcs[t].op;
    assert Secure(c, ss[0], t, op);
    RunSecure(c, ss, steps, t, op, k);
    RunKeepsInv(c, ss, steps, k);
    FinishTrue(c, ss[k], t, op);
  }

  lemma FinishTrue(c: Config, s: State, t: Tid, op: SendOp)
    requires Inv(c, s) && Secure(c, s, t, op) && Can(c, s, t, Snd(Finish))
    ensures var log := Do(c, s, t, Snd(Finish)).log;
            0 < |log| && log[|log| - 1].op == op && log[|log| - 1].ret == Some(true)
  {
    hide SendInv, PayloadInv, OwnInv, PoolInv, HistoryInv, WakeInv, TimerInv;
    InvParts(c, s);
    LocalFacts(c, s, t);
  }
}

/**
 * The two accounts of a broadcast agree: the steps of one thread, uninterrupted, do what Sequential says, and that is
 * what the methods of Mailbox are proved to do.
 */
module Agreement {
  import opened Messages
  import opened Threads
  import opened System
  import opened Broadcast
  import opened Payload
  import opened Monitor
  import opened Invariant
  import S = Sequential

  ghost function Texts(es: seq<Entry>): (r: seq<Message>)
    ensures |r| == |es|
  {
    seq(|es|, i requires 0 <= i < |es| => es[i].msg)
  }

  lemma TextsAppend(es: seq<Entry>, e: Entry)
    ensures Texts(es + [e]) == Texts(es) + [e.msg]
  {
  }

  ghost function TextsOf(queues: map<Mid, seq<Entry>>): map<Mid, seq<Message>> {
    map m | m in queues :: Texts(queues[m])
  }

  /** The state as a broadcast from pool p sees it. */
  ghost function NetOf(s: State, p: Pool): S.Net<Mid> {
    S.Net(s.free.Get(p), s.heap, TextsOf(s.queues))
  }

  /** b is the broadcast of op. */
  ghost predicate Describes(c: Config, slots: map<Label, seq<Option<Mid>>>, op: SendOp, b: S.Broadcast<Mid>) {
    && b.lab == op.lab && b.data == op.data && op.lab in slots && b.slots == slots[op.lab] && b.caps == c.caps
    && b.pool == c.sizes.SendPool(if op.data.Some? then |op.data.value| else 0)
    && |b.pmr| == |b.junk| == |b.slots|
  }

  /** The memory resource answers as b says. */
  ghost predicate Answers(b: S.Broadcast<Mid>, pc: PC, a: SendAct) {
    && (a.PmrOk? && pc.Sending? && pc.i < |b.pmr| == |b.junk| ==> b.pmr[pc.i] == Some(a.b) && b.junk[pc.i] == a.junk)
    && (a.PmrFail? && pc.Sending? && pc.i < |b.pmr| ==> b.pmr[pc.i] == None)
  }

  /** A block has been taken and, once filled, holds the value. */
  ghost function WithBlock(b: S.Broadcast<Mid>, now: S.Net<Mid>, i: nat, x: Block, counted: bool, filled: bool)
    : S.Net<Mid>
    requires S.Fits(b, now) && i < |b.slots| && b.data.Some?
  {
    var cell := Cell(b.pool, b.junk[i]);
    S.Net(if counted then now.free - 1 else now.free,
          now.blocks[x := if filled then Copied(b.data.value, cell) else cell], now.queues)
  }

  /** net is now with the part of slot i's turn done that the program counter says. */
  ghost predicate Partly(b: S.Broadcast<Mid>, now: S.Net<Mid>, pc: PC, net: S.Net<Mid>)
    requires S.Fits(b, now) && pc.Sending?
  {
    if pc.st.AtSlot? then net == now
    else
      && pc.i < |b.slots| && b.slots[pc.i].Some?
      && match pc.st
         case Checked => b.data.Some? && now.free > 0 && net == now
         case Got(x) =>
           b.data.Some? && now.free > 0 && b.pmr[pc.i] == Some(x) && net == WithBlock(b, now, pc.i, x, false, false)
         case Fill(x) =>
           b.data.Some? && now.free > 0 && b.pmr[pc.i] == Some(x) && net == WithBlock(b, now, pc.i, x, true, false)
         case WantQ(m, d) => b.slots[pc.i] == Some(m) && Loaded(b, now, pc.i, d, net)
         case InQ(m, d) => b.slots[pc.i] == Some(m) && Loaded(b, now, pc.i, d, net)
         case Tested(m, d, _) => b.slots[pc.i] == Some(m) && Loaded(b, now, pc.i, d, net)
         case Pushed(_) => net == S.Turn(b, now, pc.i)
         case LeaveQ(_) => net == S.Turn(b, now, pc.i)
         case _ => false
  }

  /** Ready to be queued. */
  ghost predicate Loaded(b: S.Broadcast<Mid>, now: S.Net<Mid>, i: nat, d: Option<Block>, net: S.Net<Mid>)
    requires S.Fits(b, now) && i < |b.slots|
  {
    if b.data.None? then d.None? && net == now
    else d.Some? && now.free > 0 && b.pmr[i] == d && net == WithBlock(b, now, i, d.value, true, true)
  }

  // One step ----------------------------------------------------------------------------------------

  ghost function NextNet(c: Config, s: State, pc: PC, a: SendAct, p: Pool): S.Net<Mid>
    requires CanSend(c, s, pc, a)
  {
    S.Net(SendFree(c, s, pc, a).Get(p), SendHeap(c, s, pc, a), TextsOf(SendQueues(c, s, pc, a)))
  }

  /** The premise of each step: pc is part of the way through the turn that takes now to its successor. */
  ghost predicate InTurn(c: Config, s: State, pc: PC, a: SendAct, b: S.Broadcast<Mid>, now: S.Net<Mid>) {
    && pc.Sending? && CanSend(c, s, pc, a) && Describes(c, s.slots, pc.op, b) && Answers(b, pc, a)
    && S.Fits(b, now) && Partly(b, now, pc, NetOf(s, b.pool)) && s.queues.Keys == c.caps.Keys
    && SeenOk(c, s.queues, pc)
  }

  lemma MemoryPart(c: Config, s: State, pc: PC, a: SendAct, b: S.Broadcast<Mid>, now: S.Net<Mid>)
    requires InTurn(c, s, pc, a, b, now) && (a.PmrOk? || a.Decrement? || a.Put?)
    ensures Partly(b, now, SendPc(c, s, pc, a), NextNet(c, s, pc, a, b.pool))
  {
  }

  lemma ChoosePart(c: Config, s: State, pc: PC, a: SendAct, b: S.Broadcast<Mid>, now: S.Net<Mid>)
    requires InTurn(c, s, pc, a, b, now) && (a.Signal? || a.Check?)
    ensures Partly(b, now, SendPc(c, s, pc, a), NextNet(c, s, pc, a, b.pool))
  {
  }

  lemma EnterPart(c: Config, s: State, pc: PC, a: SendAct, b: S.Broadcast<Mid>, now: S.Net<Mid>)
    requires InTurn(c, s, pc, a, b, now) && (a.LockQueue? || a.TestRoom?)
    ensures Partly(b, now, SendPc(c, s, pc, a), NextNet(c, s, pc, a, b.pool))
  {
  }

  lemma NotifyPart(c: Config, s: State, pc: PC, a: SendAct, b: S.Broadcast<Mid>, now: S.Net<Mid>)
    requires InTurn(c, s, pc, a, b, now) && (a.Notify? || a.NotifyNone?)
    ensures Partly(b, now, SendPc(c, s, pc, a), NextNet(c, s, pc, a, b.pool))
  {
  }

  /** The slot is null, or no block could be had for it. */
  lemma LostPart(c: Config, s: State, pc: PC, a: SendAct, b: S.Broadcast<Mid>, now: S.Net<Mid>)
    requires InTurn(c, s, pc, a, b, now) && (a.Skip? || a.Exhausted? || a.PmrFail?)
    ensures pc.i < |b.slots| && S.OutcomeAt(b, now, pc.i) == if a.Skip? then Skipped else NoBlock
    ensures NextNet(c, s, pc, a, b.pool) == S.Turn(b, now, pc.i)
  {
  }

  lemma RefusePart(c: Config, s: State, pc: PC, b: S.Broadcast<Mid>, now: S.Net<Mid>)
    requires InTurn(c, s, pc, Refuse, b, now)
    ensures pc.i < |b.slots| && S.OutcomeAt(b, now, pc.i) == Refused
    ensures NextNet(c, s, pc, Refuse, b.pool) == S.Turn(b, now, pc.i)
  {
    assert |now.queues[pc.st.m]| == |s.queues[pc.st.m]|;
  }

  lemma PushPart(c: Config, s: State, pc: PC, b: S.Broadcast<Mid>, now: S.Net<Mid>)
    requires InTurn(c, s, pc, Push, b, now)
    ensures pc.i < |b.slots| && S.OutcomeAt(b, now, pc.i) == Accepted(pc.st.d)
    ensures NextNet(c, s, pc, Push, b.pool) == S.Turn(b, now, pc.i)
  {
    var m := pc.st.m;
    assert |now.queues[m]| == |s.queues[m]|;
    var e := EntryOf(pc.op, pc.st.d, |s.log| - 1, pc.i);
    TextsAppend(s.queues[m], e);
    assert TextsOf(SendQueues(c, s, pc, Push)) == now.queues[m := now.queues[m] + [e.msg]];
  }

  ghost predicate Logged(log: seq<SendRec>, outs: seq<Outcome>) {
    0 < |log| && log[|log| - 1].outs == outs
  }

  /**
   * A thread at pc, in broadcast b: now is what its turn started from, outs what the log has of it, current the state.
   */
  ghost predicate AtPc(c: Config, slots: map<Label, seq<Option<Mid>>>, pc: PC, b: S.Broadcast<Mid>, now: S.Net<Mid>,
                       outs: seq<Outcome>, current: S.Net<Mid>, log: seq<SendRec>)
  {
    && pc.Sending? && pc.i <= |b.slots| && Describes(c, slots, pc.op, b) && S.Fits(b, now)
    && Partly(b, now, pc, current) && Logged(log, outs)
  }

  ghost predicate Prepared(c: Config, s: State, pc: PC, a: SendAct, b: S.Broadcast<Mid>, now: S.Net<Mid>,
                           outs: seq<Outcome>)
  {
    && s.queues.Keys == c.caps.Keys && CanSend(c, s, pc, a) && Answers(b, pc, a) && SeenOk(c, s.queues, pc)
    && AtPc(c, s.slots, pc, b, now, outs, NetOf(s, b.pool), s.log)
  }

  ghost predicate After(c: Config, s: State, pc: PC, a: SendAct, b: S.Broadcast<Mid>, now: S.Net<Mid>, outs: seq<Outcome>)
    requires CanSend(c, s, pc, a)
  {
    AtPc(c, s.slots, SendPc(c, s, pc, a), b, now, outs, NextNet(c, s, pc, a, b.pool), SendLog(c, s, pc, a))
  }

  lemma LogGrows(log: seq<SendRec>, outs: seq<Outcome>, o: Outcome)
    requires Logged(log, outs)
    ensures Logged(WithOut(log, o), outs + [o])
  {
  }

  /** Steps that end a turn without a copy. */
  lemma LostStep(c: Config, s: State, pc: PC, a: SendAct, b: S.Broadcast<Mid>, now: S.Net<Mid>, outs: seq<Outcome>)
    requires Prepared(c, s, pc, a, b, now, outs) && Loses(a)
    ensures pc.i < |b.slots|
    ensures After(c, s, pc, a, b, S.Turn(b, now, pc.i), outs + [S.OutcomeAt(b, now, pc.i)])
  {
    LostPart(c, s, pc, a, b, now);
    LogGrows(s.log, outs, S.OutcomeAt(b, now, pc.i));
    hide S.Turn, S.OutcomeAt, S.Fits, NetOf, NextNet, WithOut, Describes, Logged, Answers;
  }

  lemma PushStep(c: Config, s: State, pc: PC, b: S.Broadcast<Mid>, now: S.Net<Mid>, outs: seq<Outcome>)
    requires Prepared(c, s, pc, Push, b, now, outs)
    ensures pc.i < |b.slots|
    ensures After(c, s, pc, Push, b, now, outs + [S.OutcomeAt(b, now, pc.i)])
  {
    hide S.Turn, S.OutcomeAt, S.Fits, NetOf, WithOut, Logged, TextsOf;
    PushPart(c, s, pc, b, now);
    LogGrows(s.log, outs, S.OutcomeAt(b, now, pc.i));
  }

  lemma RefuseStep(c: Config, s: State, pc: PC, b: S.Broadcast<Mid>, now: S.Net<Mid>, outs: seq<Outcome>)
    requires Prepared(c, s, pc, Refuse, b, now, outs)
    ensures pc.i < |b.slots|
    ensures After(c, s, pc, Refuse, b, now, outs + [S.OutcomeAt(b, now, pc.i)])
  {
    hide S.Turn, S.OutcomeAt, S.Fits, NetOf, WithOut, Logged, TextsOf;
    RefusePart(c, s, pc, b, now);
    LogGrows(s.log, outs, S.OutcomeAt(b, now, pc.i));
  }

  predicate WithinTurn(a: SendAct) {
    || a.PmrOk? || a.Decrement? || a.Put? || a.Signal? || a.Check?
    || a.LockQueue? || a.TestRoom? || a.Notify? || a.NotifyNone?
  }

  lemma InnerStep(c: Config, s: State, pc: PC, a: SendAct, b: S.Broadcast<Mid>, now: S.Net<Mid>, outs: seq<Outcome>)
    requires Prepared(c, s, pc, a, b, now, outs) && WithinTurn(a)
    ensures After(c, s, pc, a, b, now, outs)
  {
    hide S.Turn, S.OutcomeAt, S.Fits, NetOf, NextNet, Logged, TextsOf, WithBlock, Loaded;
    if a.PmrOk? || a.Decrement? || a.Put? {
      MemoryPart(c, s, pc, a, b, now);
    } else if a.Signal? || a.Check? {
      ChoosePart(c, s, pc, a, b, now);
    } else if a.LockQueue? || a.TestRoom? {
      EnterPart(c, s, pc, a, b, now);
    } else {
      NotifyPart(c, s, pc, a, b, now);
    }
  }

  lemma LeaveStep(c: Config, s: State, pc: PC, b: S.Broadcast<Mid>, now: S.Net<Mid>, outs: seq<Outcome>)
    requires Prepared(c, s, pc, UnlockQueue, b, now, outs)
    ensures pc.i < |b.slots|
    ensures After(c, s, pc, UnlockQueue, b, S.Turn(b, now, pc.i), outs)
  {
    hide S.Turn, S.Fits, Describes, Logged, Answers;
  }

  // A whole broadcast -------------------------------------------------------------------------------

  /** Broadcast b, which started from net, has come as far as pc says and done what Sequential says. */
  ghost predicate Follows(c: Config, slots: map<Label, seq<Option<Mid>>>, pc: PC, b: S.Broadcast<Mid>, net: S.Net<Mid>,
                          current: S.Net<Mid>, log: seq<SendRec>)
  {
    && S.Fits(b, net) && pc.Sending? && pc.i <= |b.slots| && Progress(pc) <= |b.slots|
    && AtPc(c, slots, pc, b, S.NetAt(b, net, pc.i), S.OutsAt(b, net, Progress(pc)), current, log)
  }

  lemma OutsNext(b: S.Broadcast<Mid>, net: S.Net<Mid>, k: nat)
    requires S.Fits(b, net) && k < |b.slots|
    ensures S.OutsAt(b, net, k + 1) == S.OutsAt(b, net, k) + [S.OutcomeAt(b, S.NetAt(b, net, k), k)]
  {
  }

  predicate Loses(a: SendAct) {
    a.Skip? || a.Exhausted? || a.PmrFail?
  }

  // Which slot the thread is at after a step.

  lemma InnerShift(c: Config, s: State, pc: PC, a: SendAct)
    requires pc.Sending? && CanSend(c, s, pc, a) && WithinTurn(a)
    ensures var pc' := SendPc(c, s, pc, a); pc'.Sending? && pc'.i == pc.i && Progress(pc') == Progress(pc)
  {
  }

  lemma LeaveShift(c: Config, s: State, pc: PC)
    requires pc.Sending? && CanSend(c, s, pc, UnlockQueue)
    ensures var pc' := SendPc(c, s, pc, UnlockQueue); pc'.Sending? && pc'.i == pc.i + 1 == Progress(pc') == Progress(pc)
  {
  }

  lemma QueueShift(c: Config, s: State, pc: PC, a: SendAct)
    requires pc.Sending? && CanSend(c, s, pc, a) && (a.Push? || a.Refuse?)
    ensures var pc' := SendPc(c, s, pc, a); pc'.Sending? && pc'.i == pc.i == Progress(pc) && Progress(pc') == pc.i + 1
  {
  }

  lemma LostShift(c: Config, s: State, pc: PC, a: SendAct)
    requires pc.Sending? && CanSend(c, s, pc, a) && Loses(a)
    ensures var pc' := SendPc(c, s, pc, a); pc'.Sending? && pc'.i == pc.i + 1 == Progress(pc') && Progress(pc) == pc.i
  {
  }

  /** What a step needs, when the turns so far went as Sequential says. */
  ghost predicate Ready(c: Config, s: State, pc: PC, a: SendAct, b: S.Broadcast<Mid>, net: S.Net<Mid>) {
    && Follows(c, s.slots, pc, b, net, NetOf(s, b.pool), s.log) && s.queues.Keys == c.caps.Keys
    && CanSend(c, s, pc, a) && Answers(b, pc, a) && SeenOk(c, s.queues, pc)
  }

  ghost predicate StillFollows(c: Config, s: State, pc: PC, a: SendAct, b: S.Broadcast<Mid>, net: S.Net<Mid>)
    requires CanSend(c, s, pc, a)
  {
    Follows(c, s.slots, SendPc(c, s, pc, a), b, net, NextNet(c, s, pc, a, b.pool), SendLog(c, s, pc, a))
  }

  lemma InnerFollows(c: Config, s: State, pc: PC, a: SendAct, b: S.Broadcast<Mid>, net: S.Net<Mid>)
    requires Ready(c, s, pc, a, b, net) && WithinTurn(a)
    ensures StillFollows(c, s, pc, a, b, net)
  {
    InnerShift(c, s, pc, a);
    InnerStep(c, s, pc, a, b, S.NetAt(b, net, pc.i), S.OutsAt(b, net, Progress(pc)));
    hide AtPc, CanSend, SendPc, SendLog, NextNet, NetOf, Answers, S.NetAt, S.OutsAt, S.Fits;
  }

  lemma LeaveFollows(c: Config, s: State, pc: PC, b: S.Broadcast<Mid>, net: S.Net<Mid>)
    requires Ready(c, s, pc, UnlockQueue, b, net)
    ensures StillFollows(c, s, pc, UnlockQueue, b, net)
  {
    LeaveShift(c, s, pc);
    LeaveStep(c, s, pc, b, S.NetAt(b, net, pc.i), S.OutsAt(b, net, Progress(pc)));
    S.NetNext(b, net, pc.i);
    hide AtPc, CanSend, SendPc, SendLog, NextNet, NetOf, Answers, S.NetAt, S.OutsAt, S.Fits, S.Turn;
  }

  lemma PushFollows(c: Config, s: State, pc: PC, b: S.Broadcast<Mid>, net: S.Net<Mid>)
    requires Ready(c, s, pc, Push, b, net)
    ensures StillFollows(c, s, pc, Push, b, net)
  {
    QueueShift(c, s, pc, Push);
    PushStep(c, s, pc, b, S.NetAt(b, net, pc.i), S.OutsAt(b, net, pc.i));
    OutsNext(b, net, pc.i);
    hide AtPc, CanSend, SendPc, SendLog, NextNet, NetOf, Answers, S.NetAt, S.OutsAt, S.Fits, S.OutcomeAt;
  }

  lemma RefuseFollows(c: Config, s: State, pc: PC, b: S.Broadcast<Mid>, net: S.Net<Mid>)
    requires Ready(c, s, pc, Refuse, b, net)
    ensures StillFollows(c, s, pc, Refuse, b, net)
  {
    QueueShift(c, s, pc, Refuse);
    RefuseStep(c, s, pc, b, S.NetAt(b, net, pc.i), S.OutsAt(b, net, pc.i));
    OutsNext(b, net, pc.i);
    hide AtPc, CanSend, SendPc, SendLog, NextNet, NetOf, Answers, S.NetAt, S.OutsAt, S.Fits, S.OutcomeAt;
  }

  lemma LostFollows(c: Config, s: State, pc: PC, a: SendAct, b: S.Broadcast<Mid>, net: S.Net<Mid>)
    requires Ready(c, s, pc, a, b, net) && Loses(a)
    ensures StillFollows(c, s, pc, a, b, net)
  {
    LostShift(c, s, pc, a);
    LostStep(c, s, pc, a, b, S.NetAt(b, net, pc.i), S.OutsAt(b, net, pc.i));
    OutsNext(b, net, pc.i);
    S.NetNext(b, net, pc.i);
    hide AtPc, CanSend, SendPc, SendLog, NextNet, NetOf, Answers, S.NetAt, S.OutsAt, S.Fits, S.OutcomeAt, S.Turn;
  }

  lemma SendFollows(c: Config, s: State, pc: PC, a: SendAct, b: S.Broadcast<Mid>, net: S.Net<Mid>)
    requires Ready(c, s, pc, a, b, net) && a != Finish && a != PutFail && a != Cleanup
    ensures StillFollows(c, s, pc, a, b, net)
  {
    SendsOnly(c, s, pc, a, b, net);
    hide Ready, StillFollows, CanSend;
    if WithinTurn(a) {
      InnerFollows(c, s, pc, a, b, net);
    } else if a.UnlockQueue? {
      LeaveFollows(c, s, pc, b, net);
    } else if a.Push? {
      PushFollows(c, s, pc, b, net);
    } else if a.Refuse? {
      RefuseFollows(c, s, pc, b, net);
    } else {
      LostFollows(c, s, pc, a, b, net);
    }
  }

  lemma SendsOnly(c: Config, s: State, pc: PC, a: SendAct, b: S.Broadcast<Mid>, net: S.Net<Mid>)
    requires Ready(c, s, pc, a, b, net)
    ensures pc.Sending? && !a.Start? && !a.Lock? && !a.LockReject? && !a.FinishReject?
  {
    hide AtPc;
  }

  ghost predicate At(c: Config, s: State, t: Tid, b: S.Broadcast<Mid>, net: S.Net<Mid>) {
    && t in s.pcs && s.queues.Keys == c.caps.Keys
    && Follows(c, s.slots, s.pcs[t], b, net, NetOf(s, b.pool), s.log)
  }

  lemma SoloStep(c: Config, s: State, t: Tid, a: SendAct, b: S.Broadcast<Mid>, net: S.Net<Mid>)
    requires At(c, s, t, b, net) && CanSend(c, s, s.pcs[t], a) && Answers(b, s.pcs[t], a)
    requires SeenOk(c, s.queues, s.pcs[t]) && a != Finish && a != PutFail && a != Cleanup
    ensures At(c, DoSend(c, s, t, s.pcs[t], a), t, b, net)
  {
    Fields(c, s, t, s.pcs[t], a, b.pool);
    SendFollows(c, s, s.pcs[t], a, b, net);
    hide Follows, Answers, CanSend, DoSend, SendPc, SendLog, NetOf, NextNet;
  }

  lemma Fields(c: Config, s: State, t: Tid, pc: PC, a: SendAct, p: Pool)
    requires CanSend(c, s, pc, a)
    ensures var s' := DoSend(c, s, t, pc, a);
            && t in s'.pcs && s'.pcs[t] == SendPc(c, s, pc, a) && s'.slots == s.slots && s'.log == SendLog(c, s, pc, a)
            && NetOf(s', p) == NextNet(c, s, pc, a, p) && s'.queues.Keys == s.queues.Keys
  {
    QueuesStay(c, s, pc, a);
    hide CanSend, SendPc, SendFree, SendHeap, SendQueues, SendLog, SendPlace, TextsOf;
  }

  lemma QueuesStay(c: Config, s: State, pc: PC, a: SendAct)
    requires CanSend(c, s, pc, a)
    ensures SendQueues(c, s, pc, a).Keys == s.queues.Keys
  {
  }

  /** Only thread t steps, only to send, and the memory resource answers as b says. */
  ghost predicate Solo(ss: seq<State>, steps: seq<Step>, t: Tid, b: S.Broadcast<Mid>, k: nat)
    requires k <= |steps| < |ss|
  {
    forall j :: 0 <= j < k ==>
      && steps[j].t == t && steps[j].a.Snd? && steps[j].a.s != Finish
      && t in ss[j].pcs && Answers(b, ss[j].pcs[t], steps[j].a.s)
  }

  lemma {:induction false} SoloRun(c: Config, ss: seq<State>, steps: seq<Step>, t: Tid, b: S.Broadcast<Mid>,
                                   net: S.Net<Mid>, k: nat)
    requires Run(c, ss, steps) && Reachable(c, ss[0]) && k <= |steps| && Solo(ss, steps, t, b, k)
    requires At(c, ss[0], t, b, net)
    ensures At(c, ss[k], t, b, net)
  {
    if k == 0 {
    } else {
      assert Can(c, ss[k - 1], steps[k - 1].t, steps[k - 1].a);
      assert ss[k - 1 + 1] == Do(c, ss[k - 1], steps[k - 1].t, steps[k - 1].a);
      hide Run, Reachable, At, Answers, CanSend, DoSend, SeenOk;
      SoloRun(c, ss, steps, t, b, net, k - 1);
      NeverFails(c, ss, steps, t, k - 1);
      SoloStep(c, ss[k - 1], t, steps[k - 1].a.s, b, net);
    }
  }

  lemma NeverFails(c: Config, ss: seq<State>, steps: seq<Step>, t: Tid, k: nat)
    requires Run(c, ss, steps) && Reachable(c, ss[0]) && k <= |steps| && t in ss[k].pcs
    ensures !CanSend(c, ss[k], ss[k].pcs[t], PutFail) && !CanSend(c, ss[k], ss[k].pcs[t], Cleanup)
    ensures SeenOk(c, ss[k].queues, ss[k].pcs[t])
  {
    ReachableInv(c, ss[0]);
    hide Reachable, Inv, CanSend, SeenOk, MonitorInv;
    RunKeepsInv(c, ss, steps, k);
    MonitorOf(c, ss[k]);
    SeenHere(c, ss[k], t);
    NoPutFail(c, ss[k], t);
  }

  lemma NoPutFail(c: Config, s: State, t: Tid)
    requires Inv(c, s) && t in s.pcs
    ensures !CanSend(c, s, s.pcs[t], PutFail) && !CanSend(c, s, s.pcs[t], Cleanup)
  {
    hide SendInv, MonitorInv, PayloadInv, CanSend;
    PutNeverFails(c, s, t);
  }

  lemma AtSends(c: Config, s: State, t: Tid, b: S.Broadcast<Mid>, net: S.Net<Mid>)
    requires At(c, s, t, b, net)
    ensures t in s.pcs && s.pcs[t].Sending?
  {
  }

  lemma Begins(c: Config, s: State, t: Tid, b: S.Broadcast<Mid>)
    requires t in s.pcs && s.pcs[t].Sending? && s.pcs[t] == Sending(s.pcs[t].op, 0, true, AtSlot)
    requires Current(s.slots, s.log, s.pcs[t]) && s.queues.Keys == c.caps.Keys
    requires Describes(c, s.slots, s.pcs[t].op, b) && S.Fits(b, NetOf(s, b.pool))
    ensures At(c, s, t, b, NetOf(s, b.pool))
  {
  }

  lemma Ends(c: Config, s: State, t: Tid, b: S.Broadcast<Mid>, net: S.Net<Mid>)
    requires At(c, s, t, b, net) && CanSend(c, s, s.pcs[t], Finish) && Current(s.slots, s.log, s.pcs[t])
    ensures S.Fits(b, net)
    ensures var s' := DoSend(c, s, t, s.pcs[t], Finish);
            var outs := S.OutsAt(b, net, |b.slots|);
            && NetOf(s', b.pool) == S.NetAt(b, net, |b.slots|) && Logged(s'.log, outs)
            && s'.log[|s'.log| - 1].ret == Some(Clean(b.data.Some?, outs))
  {
    hide S.Turn, S.OutcomeAt, S.NetAt, S.OutsAt, S.Fits;
  }

  /**
   * A broadcast that no other thread's step interrupts leaves pool, blocks and queues as Sequential.NetAt says, with
   * Sequential's outcomes in the log, and returns true exactly when none of them lost a copy.
   */
  lemma UninterruptedBroadcast(c: Config, ss: seq<State>, steps: seq<Step>, t: Tid, b: S.Broadcast<Mid>, k: nat)
    requires Run(c, ss, steps) && Reachable(c, ss[0]) && k < |steps| && t in ss[0].pcs
    requires ss[0].pcs[t].Sending? && ss[0].pcs[t] == Sending(ss[0].pcs[t].op, 0, true, AtSlot)
    requires Describes(c, ss[0].slots, ss[0].pcs[t].op, b) && S.Fits(b, NetOf(ss[0], b.pool))
    requires Solo(ss, steps, t, b, k) && steps[k] == Step(t, Snd(Finish))
    ensures var net := NetOf(ss[0], b.pool);
            var outs := S.OutsAt(b, net, |b.slots|);
            && NetOf(ss[k + 1], b.pool) == S.NetAt(b, net, |b.slots|) && Logged(ss[k + 1].log, outs)
            && ss[k + 1].log[|ss[k + 1].log| - 1].ret == Some(Clean(b.data.Some?, outs))
  {
    assert Can(c, ss[k], t, Snd(Finish)) && ss[k + 1] == Do(c, ss[k], t, Snd(Finish));
    hide Reachable, Inv, At, CanSend, DoSend, NetOf, Describes, S.Fits, Solo, Logged, Current, SeenOk;
    ReachableInv(c, ss[0]);
    RunKeepsInv(c, ss, steps, k);
    SenderFacts(c, ss[0], t);
    Begins(c, ss[0], t, b);
    SoloRun(c, ss, steps, t, b, NetOf(ss[0], b.pool), k);
    AtSends(c, ss[k], t, b, NetOf(ss[0], b.pool));
    SenderFacts(c, ss[k], t);
    Ends(c, ss[k], t, b, NetOf(ss[0], b.pool));
  }
}

/** Every mailbox has received exactly the accepted copies of the send log, in the log's order. */
module History {
  import opened Messages
  import opened Threads
  import opened System
  import opened Locks
  import opened Broadcast
  import opened Monitor

  /** The copies for mailbox m among the first k slots of broadcast number n. */
  ghost function Copies(r: SendRec, n: nat, k: nat, m: Mid): seq<Entry>
    requires k <= |r.outs|
  {
    if k == 0 then []
    else if k <= |r.slots| && r.slots[k - 1] == Some(m) && r.outs[k - 1].Accepted? then
      Copies(r, n, k - 1, m) + [EntryOf(r.op, r.outs[k - 1].data, n, k - 1)]
    else Copies(r, n, k - 1, m)
  }

  /** The whole log as mailbox m sees it: without the copies lost to a failed allocation or a full queue. */
  ghost function Expand(log: seq<SendRec>, m: Mid): seq<Entry> {
    if |log| == 0 then []
    else
      var n := |log| - 1;
      Expand(log[..n], m) + Copies(log[n], n, |log[n].outs|, m)
  }

  ghost predicate Refines(queues: map<Mid, seq<Entry>>, popped: map<Mid, seq<Entry>>, log: seq<SendRec>) {
    forall m {:trigger Expand(log, m)} {:trigger queues[m]} ::
      m in queues && m in popped ==> popped[m] + queues[m] == Expand(log, m)
  }

  ghost predicate Bounded(c: Config, queues: map<Mid, seq<Entry>>) {
    forall m {:trigger queues[m]} :: m in queues && m in c.caps ==> |queues[m]| <= c.caps[m]
  }

  ghost predicate HistoryInv(c: Config, s: State) {
    && Refines(s.queues, s.popped, s.log)
    && Bounded(c, s.queues)
  }

  lemma InitHistory(c: Config, s: State)
    requires Init(c, s)
    ensures HistoryInv(c, s)
  {
  }

  // The log changes only at its end -------------------------------------------------------------

  lemma {:induction false} CopiesSame(r: SendRec, r': SendRec, n: nat, k: nat, m: Mid)
    requires r.op == r'.op && r.slots == r'.slots && k <= |r.outs| && k <= |r'.outs|
    requires forall j :: 0 <= j < k ==> r.outs[j] == r'.outs[j]
    ensures Copies(r, n, k, m) == Copies(r', n, k, m)
  {
    if k == 0 {
    } else {
      CopiesSame(r, r', n, k - 1, m);
    }
  }

  lemma ExpandNew(log: seq<SendRec>, r: SendRec, m: Mid)
    requires r.outs == []
    ensures Expand(log + [r], m) == Expand(log, m)
  {
    assert (log + [r])[..|log|] == log;
  }

  lemma ExpandRet(log: seq<SendRec>, ret: bool, m: Mid)
    ensures Expand(WithRet(log, ret), m) == Expand(log, m)
  {
    if log == [] {
    } else {
      var n := |log| - 1;
      var log' := WithRet(log, ret);
      CopiesSame(log[n], log'[n], n, |log[n].outs|, m);
      assert log'[..n] == log[..n];
    }
  }

  /** A new outcome adds the accepted copy, if any, at the end of one mailbox's history. */
  lemma ExpandOut(log: seq<SendRec>, o: Outcome, m: Mid)
    requires log != []
    ensures var r := log[|log| - 1];
            var i := |r.outs|;
            Expand(WithOut(log, o), m) ==
            if i < |r.slots| && r.slots[i] == Some(m) && o.Accepted?
            then Expand(log, m) + [EntryOf(r.op, o.data, |log| - 1, i)] else Expand(log, m)
  {
    var n := |log| - 1;
    var log' := WithOut(log, o);
    CopiesSame(log[n], log'[n], n, |log[n].outs|, m);
    assert log'[..n] == log[..n];
    var i := |log[n].outs|;
    assert log'[n].outs[i] == o && |log'[n].outs| == i + 1;
    assert Expand(log', m) == Expand(log[..n], m) + Copies(log'[n], n, i + 1, m);
  }

  // Steps -----------------------------------------------------------------------------------------

  lemma PushKeepsRefines(c: Config, s: State, t: Tid)
    requires t in s.pcs && CanSend(c, s, s.pcs[t], Push) && Current(s.slots, s.log, s.pcs[t])
    requires Refines(s.queues, s.popped, s.log)
    ensures Refines(SendQueues(c, s, s.pcs[t], Push), s.popped, SendLog(c, s, s.pcs[t], Push))
  {
    var pc := s.pcs[t];
    var queues' := SendQueues(c, s, pc, Push);
    var e := EntryOf(pc.op, pc.st.d, |s.log| - 1, pc.i);
    forall m: Mid | m in queues' && m in s.popped
      ensures s.popped[m] + queues'[m] == Expand(SendLog(c, s, pc, Push), m)
    {
      assert s.popped[m] + s.queues[m] == Expand(s.log, m);
      ExpandOut(s.log, Accepted(pc.st.d), m);
      Append(s.popped[m], s.queues[m], [e]);
      hide Expand, EntryOf, WithOut, OkSoFar;
    }
  }

  lemma SendKeepsRefines(c: Config, s: State, t: Tid, a: SendAct)
    requires t in s.pcs && CanSend(c, s, s.pcs[t], a)
    requires s.pcs[t].Sending? ==> Current(s.slots, s.log, s.pcs[t])
    requires Refines(s.queues, s.popped, s.log)
    ensures Refines(SendQueues(c, s, s.pcs[t], a), s.popped, SendLog(c, s, s.pcs[t], a))
  {
    var pc := s.pcs[t];
    if a.Push? {
      PushKeepsRefines(c, s, t);
    } else {
      var log' := SendLog(c, s, pc, a);
      forall m: Mid | m in s.queues && m in s.popped
        ensures Expand(log', m) == Expand(s.log, m)
      {
        if a.Lock? {
          ExpandNew(s.log, SendRec(pc.op, s.slots[pc.op.lab], [], None), m);
        } else if a.Finish? {
          ExpandRet(s.log, pc.ok, m);
        } else if s.log != [] {
          ExpandOut(s.log, Skipped, m);
          ExpandOut(s.log, NoBlock, m);
          ExpandOut(s.log, Refused, m);
        }
      }
    }
  }

  lemma SendKeepsBounded(c: Config, s: State, t: Tid, a: SendAct)
    requires t in s.pcs && CanSend(c, s, s.pcs[t], a) && Bounded(c, s.queues) && SeenOk(c, s.queues, s.pcs[t])
    ensures Bounded(c, SendQueues(c, s, s.pcs[t], a))
  {
  }

  lemma SendKeepsHistory(c: Config, s: State, t: Tid, a: SendAct)
    requires t in s.pcs && CanSend(c, s, s.pcs[t], a) && PcOk(c, s.pcs[t]) && HistoryInv(c, s)
    requires SeenOk(c, s.queues, s.pcs[t])
    requires s.pcs[t].Sending? ==> Current(s.slots, s.log, s.pcs[t])
    ensures HistoryInv(c, DoSend(c, s, t, s.pcs[t], a))
  {
    hide Refines, Bounded, Current, PcOk, SeenOk, SendPc, SendFree, SendHeap, SendPlace, SendLog, SendQueues;
    SendKeepsRefines(c, s, t, a);
    SendKeepsBounded(c, s, t, a);
  }

  lemma RecvKeepsHistory(c: Config, s: State, t: Tid, a: RecvAct)
    requires t in s.pcs && CanRecv(c, s, t, s.pcs[t], a) && HistoryInv(c, s)
    ensures HistoryInv(c, DoRecv(c, s, t, s.pcs[t], a))
  {
    var s' := DoRecv(c, s, t, s.pcs[t], a);
    if a.Pop? && s.queues[s.pcs[t].m] != [] {
      forall m: Mid | m in s'.queues && m in s'.popped
        ensures s'.popped[m] + s'.queues[m] == Expand(s.log, m)
      {
        assert s.popped[m] + s.queues[m] == Expand(s.log, m);
      }
    }
  }

  // What the refinement means ---------------------------------------------------------------------

  /** Later broadcast, or a later slot of the same broadcast. */
  predicate Before(e: Entry, f: Entry) {
    e.num < f.num || (e.num == f.num && e.slot < f.slot)
  }

  ghost predicate Ordered(es: seq<Entry>) {
    forall i, j :: 0 <= i < j < |es| ==> Before(es[i], es[j])
  }

  lemma {:induction false} CopiesOrdered(r: SendRec, n: nat, k: nat, m: Mid)
    requires k <= |r.outs|
    ensures Ordered(Copies(r, n, k, m))
    ensures forall i :: 0 <= i < |Copies(r, n, k, m)| ==> Copies(r, n, k, m)[i].num == n && Copies(r, n, k, m)[i].slot < k
  {
    if k == 0 {
    } else {
      CopiesOrdered(r, n, k - 1, m);
    }
  }

  lemma {:induction false} ExpandOrdered(log: seq<SendRec>, m: Mid)
    ensures Ordered(Expand(log, m))
    ensures forall i :: 0 <= i < |Expand(log, m)| ==> Expand(log, m)[i].num < |log|
  {
    if |log| == 0 {
    } else {
      var n := |log| - 1;
      ExpandOrdered(log[..n], m);
      CopiesOrdered(log[n], n, |log[n].outs|, m);
    }
  }

  /** Entry e is the copy that broadcast e.num made for slot e.slot, which held mailbox m. */
  ghost predicate IsCopy(log: seq<SendRec>, m: Mid, e: Entry) {
    && e.num < |log|
    && var r := log[e.num];
       && e.slot < |r.outs| && e.slot < |r.slots| && r.slots[e.slot] == Some(m) && r.outs[e.slot].Accepted?
       && e == EntryOf(r.op, r.outs[e.slot].data, e.num, e.slot)
  }

  lemma {:induction false} CopiesMembers(r: SendRec, n: nat, k: nat, m: Mid, e: Entry)
    requires k <= |r.outs|
    ensures e in Copies(r, n, k, m) <==>
            && e.num == n && e.slot < k && e.slot < |r.slots| && r.slots[e.slot] == Some(m)
            && r.outs[e.slot].Accepted? && e == EntryOf(r.op, r.outs[e.slot].data, n, e.slot)
  {
    if k == 0 {
    } else {
      CopiesMembers(r, n, k - 1, m, e);
    }
  }

  /** A mailbox's history holds the accepted copies and nothing else. */
  lemma {:induction false} ExpandMembers(log: seq<SendRec>, m: Mid, e: Entry)
    ensures e in Expand(log, m) <==> IsCopy(log, m, e)
  {
    if |log| == 0 {
    } else {
      var n := |log| - 1;
      ExpandMembers(log[..n], m, e);
      CopiesMembers(log[n], n, |log[n].outs|, m, e);
      assert e.num < n ==> log[..n][e.num] == log[e.num];
    }
  }
}

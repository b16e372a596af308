/** What one broadcast does when no other thread runs, as a function of the state it starts in. */
module Sequential {
  import opened Messages
  import System

  /** What a broadcast changes: the counter of its pool, the blocks in use and the queues. */
  datatype Net<M> = Net(free: int, blocks: map<Block, Cell>, queues: map<M, seq<Message>>)

  /** What becomes of one copy. */
  function Fate(isData: bool, free: int, pmr: Option<Block>, capacity: nat, length: nat): System.Outcome {
    if isData && (free <= 0 || pmr.None?) then System.NoBlock
    else if length < capacity then System.Accepted(if isData then pmr else None)
    else System.Refused
  }

  /**
   * A call of SendMessage, or of SendSignal when data is None, with the label's slots and the queues' capacities.
   * pmr is what the memory resource answers at each slot, junk what the block contains.
   */
  datatype Broadcast<M> = Broadcast(lab: Label, data: Option<seq<Byte>>, slots: seq<Option<M>>, caps: map<M, nat>,
                          pool: Pool, pmr: seq<Option<Block>>, junk: seq<seq<Byte>>)

  ghost predicate Fits<M>(c: Broadcast<M>, net: Net<M>) {
    && |c.pmr| == |c.junk| == |c.slots| && net.queues.Keys == c.caps.Keys
    && (forall i :: 0 <= i < |c.slots| && c.slots[i].Some? ==> c.slots[i].value in c.caps)
    && (c.data.Some? ==> forall i :: 0 <= i < |c.junk| ==> |c.data.value| <= |c.junk[i]|)
  }

  /** The memory resource hands out unused and distinct blocks. */
  ghost predicate Fresh<M>(c: Broadcast<M>, net: Net<M>)
    requires Fits(c, net)
  {
    && (forall i :: 0 <= i < |c.pmr| && c.pmr[i].Some? ==> c.pmr[i].value !in net.blocks)
    && (forall i, j :: 0 <= i < j < |c.pmr| && c.pmr[i].Some? ==> c.pmr[i] != c.pmr[j])
  }

  ghost function OutcomeAt<M>(c: Broadcast<M>, net: Net<M>, i: nat): System.Outcome
    requires Fits(c, net) && i < |c.slots|
  {
    if c.slots[i].None? then System.Skipped
    else Fate(c.data.Some?, net.free, c.pmr[i], c.caps[c.slots[i].value], |net.queues[c.slots[i].value]|)
  }

  /** The message an accepted copy puts in its queue. */
  function Copy<M>(c: Broadcast<M>, o: System.Outcome): Message
    requires o.Accepted?
  {
    if c.data.Some? && o.data.Some? then DataMessage(c.lab, |c.data.value|, o.data.value) else SignalMessage(c.lab)
  }

  /** What outcome o of slot i adds to m's queue. */
  ghost function CopyFor<M>(c: Broadcast<M>, o: System.Outcome, i: nat, m: M): seq<Message>
    requires i < |c.slots|
  {
    if c.slots[i] == Some(m) && o.Accepted? then [Copy(c, o)] else []
  }

  /** One turn of the loop. */
  ghost function Turn<M>(c: Broadcast<M>, net: Net<M>, i: nat): (net': Net<M>)
    requires Fits(c, net) && i < |c.slots|
    ensures Fits(c, net')
  {
    var o := OutcomeAt(c, net, i);
    var filled :=
      if c.data.Some? && o.Took() then
        Net(net.free - 1, net.blocks[c.pmr[i].value := Copied(c.data.value, Cell(c.pool, c.junk[i]))], net.queues)
      else net;
    if o.Accepted? then
      filled.(queues := net.queues[c.slots[i].value := net.queues[c.slots[i].value] + [Copy(c, o)]])
    else filled
  }

  ghost function NetAt<M>(c: Broadcast<M>, net: Net<M>, k: nat): (net': Net<M>)
    requires Fits(c, net) && k <= |c.slots|
    ensures Fits(c, net')
  {
    if k == 0 then net else Turn(c, NetAt(c, net, k - 1), k - 1)
  }

  ghost function OutsAt<M>(c: Broadcast<M>, net: Net<M>, k: nat): (outs: seq<System.Outcome>)
    requires Fits(c, net) && k <= |c.slots|
    ensures |outs| == k
  {
    if k == 0 then [] else OutsAt(c, net, k - 1) + [OutcomeAt(c, NetAt(c, net, k - 1), k - 1)]
  }

  // A broadcast in closed form ----------------------------------------------------------------------

  /** The copies that the first k outcomes queued for mailbox m, oldest first. */
  ghost function CopiesFor<M>(c: Broadcast<M>, outs: seq<System.Outcome>, m: M, k: nat): seq<Message>
    requires k <= |outs| <= |c.slots|
  {
    if k == 0 then []
    else
      CopiesFor(c, outs, m, k - 1) + CopyFor(c, outs[k - 1], k - 1, m)
  }

  /** How many blocks the first k outcomes took. A refused copy keeps its block. */
  ghost function Used(outs: seq<System.Outcome>, k: nat): nat
    requires k <= |outs|
  {
    if k == 0 then 0 else Used(outs, k - 1) + (if outs[k - 1].Took() then 1 else 0)
  }

  ghost predicate Stores<M>(c: Broadcast<M>, outs: seq<System.Outcome>, b: Block, i: nat)
    requires |outs| <= |c.slots| == |c.pmr|
  {
    i < |outs| && c.data.Some? && outs[i].Took() && c.pmr[i] == Some(b)
  }

  lemma {:induction false} OutAt<M>(c: Broadcast<M>, net: Net<M>, n: nat, i: nat)
    requires Fits(c, net) && i < n <= |c.slots|
    ensures OutsAt(c, net, n)[i] == OutcomeAt(c, NetAt(c, net, i), i)
  {
    if i == n - 1 {
    } else {
      OutAt(c, net, n - 1, i);
    }
  }

  lemma NetNext<M>(c: Broadcast<M>, net: Net<M>, k: nat)
    requires Fits(c, net) && k < |c.slots|
    ensures NetAt(c, net, k + 1) == Turn(c, NetAt(c, net, k), k)
  {
  }

  lemma TurnAt<M>(c: Broadcast<M>, net: Net<M>, i: nat, m: M)
    requires Fits(c, net) && i < |c.slots| && m in c.caps
    ensures Turn(c, net, i).queues[m] == net.queues[m] + CopyFor(c, OutcomeAt(c, net, i), i, m)
  {
  }

  lemma TurnBounded<M>(c: Broadcast<M>, net: Net<M>, i: nat, m: M)
    requires Fits(c, net) && i < |c.slots| && m in c.caps && |net.queues[m]| <= c.caps[m]
    ensures |Turn(c, net, i).queues[m]| <= c.caps[m]
  {
  }

  lemma TurnBlocks<M>(c: Broadcast<M>, net: Net<M>, i: nat)
    requires Fits(c, net) && i < |c.slots|
    ensures c.data.Some? && OutcomeAt(c, net, i).Took() ==>
              c.pmr[i].Some? &&
              Turn(c, net, i).blocks == net.blocks[c.pmr[i].value := Copied(c.data.value, Cell(c.pool, c.junk[i]))]
    ensures !(c.data.Some? && OutcomeAt(c, net, i).Took()) ==> Turn(c, net, i).blocks == net.blocks
    ensures c.data.Some? ==> Turn(c, net, i).free == net.free - (if OutcomeAt(c, net, i).Took() then 1 else 0)
    ensures c.data.Some? && net.free >= 0 ==> Turn(c, net, i).free >= 0
  {
  }

  /** A queue after the first k outcomes. */
  ghost function QueueAfter<M>(c: Broadcast<M>, q: seq<Message>, outs: seq<System.Outcome>, m: M, k: nat): seq<Message>
    requires k <= |outs| <= |c.slots|
  {
    if k == 0 then q else QueueAfter(c, q, outs, m, k - 1) + CopyFor(c, outs[k - 1], k - 1, m)
  }

  lemma {:induction false} QueueAfterGrows<M>(c: Broadcast<M>, q: seq<Message>, outs: seq<System.Outcome>, m: M, k: nat)
    requires k <= |outs| <= |c.slots|
    ensures QueueAfter(c, q, outs, m, k) == q + CopiesFor(c, outs, m, k)
  {
    if k == 0 {
    } else {
      QueueAfterGrows(c, q, outs, m, k - 1);
      Append(q, CopiesFor(c, outs, m, k - 1), CopyFor(c, outs[k - 1], k - 1, m));
    }
  }

  lemma QueueStep<M>(c: Broadcast<M>, net: Net<M>, k: nat, m: M)
    requires Fits(c, net) && k < |c.slots| && m in c.caps
    ensures NetAt(c, net, k + 1).queues[m] ==
            NetAt(c, net, k).queues[m] + CopyFor(c, OutsAt(c, net, |c.slots|)[k], k, m)
  {
    OutAt(c, net, |c.slots|, k);
    TurnAt(c, NetAt(c, net, k), k, m);
  }

  lemma {:induction false} QueueFollows<M>(c: Broadcast<M>, net: Net<M>, k: nat, m: M)
    requires Fits(c, net) && k <= |c.slots| && m in c.caps
    ensures NetAt(c, net, k).queues[m] == QueueAfter(c, net.queues[m], OutsAt(c, net, |c.slots|), m, k)
  {
    hide Turn, CopyFor, OutcomeAt, Fits, OutsAt, Copy;
    if k == 0 {
    } else {
      QueueStep(c, net, k - 1, m);
      QueueFollows(c, net, k - 1, m);
    }
  }

  /** After k turns each queue has gained its copies in slot order. */
  lemma QueuesInClosedForm<M>(c: Broadcast<M>, net: Net<M>, k: nat, m: M)
    requires Fits(c, net) && k <= |c.slots| && m in c.caps
    ensures NetAt(c, net, k).queues[m] == net.queues[m] + CopiesFor(c, OutsAt(c, net, |c.slots|), m, k)
  {
    QueueFollows(c, net, k, m);
    QueueAfterGrows(c, net.queues[m], OutsAt(c, net, |c.slots|), m, k);
    hide NetAt, OutsAt, QueueAfter, CopiesFor;
  }

  /** No queue is filled beyond its capacity. */
  lemma {:induction false} QueuesBounded<M>(c: Broadcast<M>, net: Net<M>, k: nat, m: M)
    requires Fits(c, net) && k <= |c.slots| && m in c.caps && |net.queues[m]| <= c.caps[m]
    ensures |NetAt(c, net, k).queues[m]| <= c.caps[m]
  {
    hide Turn, OutcomeAt;
    if k == 0 {
    } else {
      QueuesBounded(c, net, k - 1, m);
      TurnBounded(c, NetAt(c, net, k - 1), k - 1, m);
    }
  }

  /** After k turns the pool has lost one block for each copy that took one. */
  lemma {:induction false} CounterInClosedForm<M>(c: Broadcast<M>, net: Net<M>, k: nat)
    requires Fits(c, net) && k <= |c.slots| && c.data.Some?
    ensures NetAt(c, net, k).free == net.free - Used(OutsAt(c, net, |c.slots|), k)
    ensures net.free >= 0 ==> NetAt(c, net, k).free >= 0
  {
    if k == 0 {
    } else {
      NetNext(c, net, k - 1);
      hide NetAt, OutsAt, Turn, OutcomeAt;
      CounterInClosedForm(c, net, k - 1);
      OutAt(c, net, |c.slots|, k - 1);
      TurnBlocks(c, NetAt(c, net, k - 1), k - 1);
    }
  }

  /** Old blocks are untouched, and the new ones are those taken for a copy, each starting with the value sent. */
  ghost predicate Filled<M>(c: Broadcast<M>, outs: seq<System.Outcome>, before: map<Block, Cell>,
                            blocks: map<Block, Cell>, k: nat)
    requires k <= |outs| == |c.slots| == |c.pmr| == |c.junk|
    requires c.data.Some? ==> forall i :: 0 <= i < |c.junk| ==> |c.data.value| <= |c.junk[i]|
  {
    && (forall b :: b in before ==> b in blocks && blocks[b] == before[b])
    && (forall i, b {:trigger Stores(c, outs, b, i)} :: 0 <= i < k && Stores(c, outs, b, i) ==>
          b in blocks && blocks[b] == Copied(c.data.value, Cell(c.pool, c.junk[i])))
    && (forall b :: b in blocks && b !in before ==> exists i :: 0 <= i < k && Stores(c, outs, b, i))
  }

  lemma FilledNext<M>(c: Broadcast<M>, net: Net<M>, outs: seq<System.Outcome>, blocks: map<Block, Cell>, k: nat)
    requires Fits(c, net) && Fresh(c, net) && k < |outs| == |c.slots| && Filled(c, outs, net.blocks, blocks, k)
    requires c.data.Some? && outs[k].Took() && c.pmr[k].Some?
    ensures Filled(c, outs, net.blocks, blocks[c.pmr[k].value := Copied(c.data.value, Cell(c.pool, c.junk[k]))], k + 1)
  {
    assert Stores(c, outs, c.pmr[k].value, k);
    hide Copied;
  }

  lemma FilledSame<M>(c: Broadcast<M>, net: Net<M>, outs: seq<System.Outcome>, blocks: map<Block, Cell>, k: nat)
    requires Fits(c, net) && k < |outs| == |c.slots| && Filled(c, outs, net.blocks, blocks, k)
    requires !(c.data.Some? && outs[k].Took())
    ensures Filled(c, outs, net.blocks, blocks, k + 1)
  {
    assert forall b :: !Stores(c, outs, b, k);
    hide Copied;
  }

  lemma {:induction false} BlocksInClosedForm<M>(c: Broadcast<M>, net: Net<M>, k: nat)
    requires Fits(c, net) && Fresh(c, net) && k <= |c.slots|
    ensures Filled(c, OutsAt(c, net, |c.slots|), net.blocks, NetAt(c, net, k).blocks, k)
  {
    hide OutsAt, Turn, OutcomeAt, Copied;
    if k == 0 {
    } else {
      NetNext(c, net, k - 1);
      hide NetAt, Fresh, Filled;
      BlocksInClosedForm(c, net, k - 1);
      var outs, last := OutsAt(c, net, |c.slots|), NetAt(c, net, k - 1);
      OutAt(c, net, |c.slots|, k - 1);
      TurnBlocks(c, last, k - 1);
      if c.data.Some? && outs[k - 1].Took() {
        FilledNext(c, net, outs, last.blocks, k - 1);
      } else {
        FilledSame(c, net, outs, last.blocks, k - 1);
      }
    }
  }

  /** The block offered at slot k has not been used at an earlier one. */
  lemma StillFresh<M>(c: Broadcast<M>, net: Net<M>, k: nat)
    requires Fits(c, net) && Fresh(c, net) && k < |c.slots|
    ensures c.pmr[k].Some? ==> c.pmr[k].value !in NetAt(c, net, k).blocks
  {
    BlocksInClosedForm(c, net, k);
    hide NetAt, OutsAt;
  }

  // When everything is delivered --------------------------------------------------------------------

  function Occupied<M>(slots: seq<Option<M>>, k: nat): nat
    requires k <= |slots|
  {
    if k == 0 then 0 else Occupied(slots, k - 1) + (if slots[k - 1].Some? then 1 else 0)
  }

  ghost function Wanted<M>(slots: seq<Option<M>>, k: nat, m: M): nat
    requires k <= |slots|
  {
    if k == 0 then 0 else Wanted(slots, k - 1, m) + (if slots[k - 1] == Some(m) then 1 else 0)
  }

  lemma {:induction false} WantedCounts<M>(slots: seq<Option<M>>, k: nat, m: M)
    requires k <= |slots|
    ensures Wanted(slots, k, m) == multiset(slots[..k])[Some(m)]
  {
    if k == 0 {
    } else {
      WantedCounts(slots, k - 1, m);
      assert slots[..k] == slots[..k - 1] + [slots[k - 1]];
    }
  }

  /** How many of n more elements a queue takes. */
  function Gain(n: nat, capacity: nat, length: nat): nat {
    if length + n <= capacity then n else if length <= capacity then capacity - length else 0
  }

  function Signals(lab: Label, n: nat): (r: seq<Message>)
    ensures |r| == n && forall i :: 0 <= i < n ==> r[i] == Message(None, lab, 0)
  {
    seq(n, _ => Message(None, lab, 0))
  }

  /** A signal puts into each queue as many copies as it has slots, as far as there is room. */
  lemma {:induction false} SignalsInClosedForm<M>(c: Broadcast<M>, net: Net<M>, k: nat, m: M)
    requires Fits(c, net) && c.data.None? && k <= |c.slots| && m in c.caps
    ensures NetAt(c, net, k).queues[m] ==
            net.queues[m] + Signals(c.lab, Gain(Wanted(c.slots, k, m), c.caps[m], |net.queues[m]|))
  {
    if k == 0 {
    } else {
      SignalsInClosedForm(c, net, k - 1, m);
      TurnAt(c, NetAt(c, net, k - 1), k - 1, m);
      hide Turn;
    }
  }

  /** The same, for the whole broadcast. */
  lemma SignalGain<M>(c: Broadcast<M>, net: Net<M>, m: M)
    requires Fits(c, net) && c.data.None? && m in c.caps
    ensures NetAt(c, net, |c.slots|).queues[m] ==
            net.queues[m] + Signals(c.lab, Gain(multiset(c.slots)[Some(m)], c.caps[m], |net.queues[m]|))
  {
    hide NetAt;
    SignalsInClosedForm(c, net, |c.slots|, m);
    WantedCounts(c.slots, |c.slots|, m);
    assert c.slots[..|c.slots|] == c.slots;
  }

  /** A block for every occupied slot, room for every copy, and no failure of the memory resource. */
  ghost predicate Enough<M>(c: Broadcast<M>, net: Net<M>, k: nat)
    requires Fits(c, net) && k <= |c.slots|
  {
    && (Occupied(c.slots, k) > 0 ==> Occupied(c.slots, k) <= net.free)
    && (forall m :: m in c.caps && Wanted(c.slots, k, m) > 0 ==> |net.queues[m]| + Wanted(c.slots, k, m) <= c.caps[m])
    && (forall i :: 0 <= i < k && c.slots[i].Some? ==> c.pmr[i].Some?)
  }

  /** Slot k is null or finds a block and room, all earlier copies having been delivered. */
  ghost predicate Served<M>(c: Broadcast<M>, net: Net<M>, k: nat)
    requires Fits(c, net) && k < |c.slots|
  {
    c.slots[k].Some? ==>
      var m := c.slots[k].value;
      && Occupied(c.slots, k) < net.free && c.pmr[k].Some?
      && |net.queues[m]| + Wanted(c.slots, k, m) < c.caps[m]
  }

  lemma EnoughNext<M>(c: Broadcast<M>, net: Net<M>, k: nat)
    requires Fits(c, net) && k < |c.slots|
    ensures Enough(c, net, k + 1) <==> Enough(c, net, k) && Served(c, net, k)
  {
    assert forall m :: m in c.caps && c.slots[k] != Some(m) ==> Wanted(c.slots, k + 1, m) == Wanted(c.slots, k, m);
    if c.slots[k].Some? {
      var m := c.slots[k].value;
      assert Wanted(c.slots, k + 1, m) == Wanted(c.slots, k, m) + 1;
      assert Occupied(c.slots, k + 1) == Occupied(c.slots, k) + 1;
    }
  }

  lemma CleanNext(outs: seq<System.Outcome>, o: System.Outcome)
    ensures System.Clean(true, outs + [o]) <==> System.Clean(true, outs) && (o.Skipped? || o.Accepted?)
  {
    assert (outs + [o])[..|outs|] == outs && (outs + [o])[|outs|] == o;
    assert System.Clean(true, outs + [o]) ==> forall j :: 0 <= j < |outs| ==> outs[j] == (outs + [o])[j];
  }

  /** With every copy delivered so far, what is left. */
  ghost predicate AllTaken<M>(c: Broadcast<M>, net: Net<M>, now: Net<M>, k: nat)
    requires Fits(c, net) && Fits(c, now) && k <= |c.slots|
  {
    && now.free == net.free - Occupied(c.slots, k)
    && forall m :: m in c.caps ==> |now.queues[m]| == |net.queues[m]| + Wanted(c.slots, k, m)
  }

  lemma AllTakenNext<M>(c: Broadcast<M>, net: Net<M>, now: Net<M>, k: nat)
    requires Fits(c, net) && Fits(c, now) && k < |c.slots| && c.data.Some? && AllTaken(c, net, now, k)
    ensures OutcomeAt(c, now, k).Skipped? || OutcomeAt(c, now, k).Accepted? <==> Served(c, net, k)
    ensures Served(c, net, k) ==> AllTaken(c, net, Turn(c, now, k), k + 1)
  {
  }

  /** SendMessage succeeds exactly when there was enough of everything at the start. */
  lemma {:induction false} CleanIff<M>(c: Broadcast<M>, net: Net<M>, k: nat)
    requires Fits(c, net) && k <= |c.slots| && c.data.Some?
    ensures System.Clean(true, OutsAt(c, net, k)) <==> Enough(c, net, k)
    ensures System.Clean(true, OutsAt(c, net, k)) ==> AllTaken(c, net, NetAt(c, net, k), k)
  {
    if k == 0 {
    } else {
      CleanIff(c, net, k - 1);
      var last := NetAt(c, net, k - 1);
      CleanNext(OutsAt(c, net, k - 1), OutcomeAt(c, last, k - 1));
      EnoughNext(c, net, k - 1);
      hide System.Clean, Enough, AllTaken, Served, Turn, OutcomeAt;
      if System.Clean(true, OutsAt(c, net, k - 1)) {
        AllTakenNext(c, net, last, k - 1);
      }
    }
  }

  /** A broadcast of data that succeeds adds to each queue one message for each slot of its mailbox. */
  lemma MessageGain<M>(c: Broadcast<M>, net: Net<M>, m: M)
    requires Fits(c, net) && c.data.Some? && m in c.caps && System.Clean(true, OutsAt(c, net, |c.slots|))
    ensures net.queues[m] <= NetAt(c, net, |c.slots|).queues[m]
    ensures |NetAt(c, net, |c.slots|).queues[m]| == |net.queues[m]| + multiset(c.slots)[Some(m)]
  {
    hide NetAt, OutsAt, System.Clean;
    CleanIff(c, net, |c.slots|);
    QueuesInClosedForm(c, net, |c.slots|, m);
    WantedCounts(c.slots, |c.slots|, m);
    assert c.slots[..|c.slots|] == c.slots;
  }
}

/**
 * The class of include/msglib/Mailbox.h as one thread uses it, proved against Sequential's account of a broadcast.
 * What the memory resource answers at each slot, and the junk its blocks contain, are parameters.
 */
module Mailboxes {
  import opened Messages
  import opened BytePools
  import opened Queues
  import opened Sequential
  import opened SharedData
  import System

  const QUEUE_SIZE: nat := 256

  function PoolFor(isLarge: bool): Pool {
    if isLarge then Large else Small
  }

  ghost function Boxes(slots: seq<Option<Mailbox>>): set<Mailbox> {
    set i | 0 <= i < |slots| && slots[i].Some? :: slots[i].value
  }

  ghost function QueuesOf(boxes: set<Mailbox>): set<object> {
    set m | m in boxes :: m.queue
  }

  /** Each mailbox has a queue of its own. */
  ghost predicate Separate(boxes: set<Mailbox>) {
    forall m, m' :: m in boxes && m' in boxes && m != m' ==> m.queue != m'.queue
  }

  /** The state as a broadcast to these mailboxes sees it. */
  ghost function View(data: MailboxData<Mailbox>, isLarge: bool, boxes: set<Mailbox>): Net<Mailbox>
    requires data.initialized && data.Valid()
    reads data, data.Footprint(), QueuesOf(boxes)
  {
    Net(data.PoolAt(isLarge).size, data.Blocks(), map m | m in boxes :: m.queue.elements)
  }

  ghost function Capacities(slots: seq<Option<Mailbox>>): map<Mailbox, nat> {
    map m | m in Boxes(slots) :: m.queue.capacity
  }

  /** The memory resource hands out unused and distinct blocks of the size asked for. */
  ghost predicate Provided(c: Broadcast<Mailbox>, net: Net<Mailbox>, z: Sizes) {
    && |c.pmr| == |c.junk| == |c.slots| && (forall i :: 0 <= i < |c.junk| ==> |c.junk[i]| == z.EltSize(c.pool))
    && Fits(c, net) && Fresh(c, net)
  }

  /** Broadcast c, which starts in state net, is a call of SendMessage with a size that is accepted. */
  ghost predicate Posed(z: Sizes, slots: seq<Option<Mailbox>>, lab: Label, value: seq<Byte>, pmr: seq<Option<Block>>,
                        junk: seq<seq<Byte>>, c: Broadcast<Mailbox>, net: Net<Mailbox>) {
    && c == Broadcast(lab, Some(value), slots, Capacities(slots), PoolFor(|value| > z.smallSize), pmr, junk)
    && |value| <= z.largeSize && Provided(c, net, z) && Separate(c.caps.Keys)
  }

  /** The call has dealt with its first k slots. */
  ghost predicate Underway(data: MailboxData<Mailbox>, lab: Label, value: seq<Byte>, pmr: seq<Option<Block>>,
                           junk: seq<seq<Byte>>, c: Broadcast<Mailbox>, net: Net<Mailbox>, k: nat)
    requires data.initialized && data.Valid()
    reads data, data.Footprint(), QueuesOf(c.caps.Keys)
  {
    && Posed(data.resources.sizes, data.Slots(lab), lab, value, pmr, junk, c, net)
    && k <= |c.slots| && View(data, |value| > data.SmallSize(), c.caps.Keys) == NetAt(c, net, k)
  }

  /** A signal asks for no blocks. */
  ghost function SignalCall(data: MailboxData<Mailbox>, lab: Label): Broadcast<Mailbox>
    requires data.initialized && data.Valid()
    reads data, data.Footprint()
  {
    var slots := data.Slots(lab);
    var n := |slots|;
    Broadcast(lab, None, slots, Capacities(slots), Small, seq(n, _ => None), seq(n, _ => []))
  }

  lemma TurnIs(data: MailboxData<Mailbox>, isLarge: bool, c: Broadcast<Mailbox>, k: nat, now: Net<Mailbox>,
               receiver: Mailbox)
    requires Fits(c, now) && k < |c.slots| && c.slots[k] == Some(receiver) && c.data.Some?
    requires data.initialized && data.Valid()
    requires data.PoolAt(isLarge).size == now.free - (if OutcomeAt(c, now, k).Took() then 1 else 0)
    requires OutcomeAt(c, now, k).Took() ==> c.pmr[k].Some?
    requires data.Blocks() ==
             if OutcomeAt(c, now, k).Took()
             then now.blocks[c.pmr[k].value := Copied(c.data.value, Cell(c.pool, c.junk[k]))] else now.blocks
    requires receiver.queue.elements ==
             now.queues[receiver] +
             (if OutcomeAt(c, now, k).Accepted? then [DataMessage(c.lab, |c.data.value|, c.pmr[k].value)] else [])
    requires forall m :: m in c.caps && m != receiver ==> m.queue.elements == now.queues[m]
    ensures View(data, isLarge, c.caps.Keys) == Turn(c, now, k)
  {
    var after := Turn(c, now, k);
    forall m | m in c.caps
      ensures m.queue.elements == after.queues[m]
    {
    }
    assert View(data, isLarge, c.caps.Keys).queues == after.queues;
  }

  lemma SignalGains(data: MailboxData<Mailbox>, c: Broadcast<Mailbox>, net: Net<Mailbox>)
    requires data.initialized && data.Valid() && Fits(c, net) && c.data.None?
    requires View(data, false, c.caps.Keys) == NetAt(c, net, |c.slots|)
    ensures forall m {:trigger m in c.caps} :: m in c.caps ==>
              m.queue.elements ==
              net.queues[m] +
              Signals(c.lab, Gain(multiset(c.slots)[Some(m)], c.caps[m], |net.queues[m]|))
  {
    hide NetAt;
    forall m {:trigger m in c.caps} | m in c.caps
      ensures m.queue.elements ==
              net.queues[m] +
              Signals(c.lab, Gain(multiset(c.slots)[Some(m)], c.caps[m], |net.queues[m]|))
    {
      SignalGain(c, net, m);
      assert View(data, false, c.caps.Keys).queues[m] == m.queue.elements;
    }
  }

  lemma MessageGains(data: MailboxData<Mailbox>, isLarge: bool, c: Broadcast<Mailbox>, net: Net<Mailbox>)
    requires data.initialized && data.Valid() && Fits(c, net) && c.data.Some?
    requires View(data, isLarge, c.caps.Keys) == NetAt(c, net, |c.slots|)
    requires System.Clean(true, OutsAt(c, net, |c.slots|))
    ensures forall m {:trigger m in c.caps} :: m in c.caps ==>
              && net.queues[m] <= m.queue.elements
              && |m.queue.elements| == |net.queues[m]| + multiset(c.slots)[Some(m)]
  {
    hide NetAt, OutsAt;
    forall m {:trigger m in c.caps} | m in c.caps
      ensures net.queues[m] <= m.queue.elements
      ensures |m.queue.elements| == |net.queues[m]| + multiset(c.slots)[Some(m)]
    {
      MessageGain(c, net, m);
      assert View(data, isLarge, c.caps.Keys).queues[m] == m.queue.elements;
    }
  }

  lemma TurnFacts(c: Broadcast<Mailbox>, net: Net<Mailbox>, k: nat)
    requires Fits(c, net) && Fresh(c, net) && k < |c.slots|
    ensures c.pmr[k].Some? ==> c.pmr[k].value !in NetAt(c, net, k).blocks
    ensures NetAt(c, net, k + 1) == Turn(c, NetAt(c, net, k), k)
    ensures System.Clean(true, OutsAt(c, net, k + 1)) <==>
            System.Clean(true, OutsAt(c, net, k)) && (OutcomeAt(c, NetAt(c, net, k), k).Accepted? || c.slots[k].None?)
  {
    StillFresh(c, net, k);
    CleanNext(OutsAt(c, net, k), OutcomeAt(c, NetAt(c, net, k), k));
  }

  class Mailbox {
    const queue: Queue<Message>

    constructor (queueSize: nat := QUEUE_SIZE)
      ensures fresh(queue) && queue.elements == [] && queue.capacity == queueSize
    {
      queue := new Queue(queueSize);
    }

    static method Allocate(data: MailboxData<Mailbox>, isLarge: bool, pmr: Option<Block>, junk: seq<Byte>)
      returns (db: DataBlock)
      requires data.Valid() && data.initialized && data.mutex.held
      requires data.CanProvide(pmr, junk, data.resources.sizes.EltSize(PoolFor(isLarge)))
      modifies data.Pools()
      ensures data.Valid()
      ensures data.PoolAt(!isLarge).size == old(data.PoolAt(!isLarge).size)
      ensures db.data.Some? <==> old(data.PoolAt(isLarge).size) > 0 && pmr.Some?
      ensures db.data.Some? ==>
                && db == DataBlock(data.resources.sizes.EltSize(PoolFor(isLarge)), pmr)
                && data.PoolAt(isLarge).size == old(data.PoolAt(isLarge).size) - 1
                && data.Blocks() == old(data.Blocks())[pmr.value := Cell(PoolFor(isLarge), junk)]
      ensures db.data.None? ==>
                data.PoolAt(isLarge).size == old(data.PoolAt(isLarge).size) && data.Blocks() == old(data.Blocks())
    {
      var answer: Answer<DataBlock>;
      if isLarge {
        answer := data.AllocateLarge(false, pmr, junk);
      } else {
        answer := data.AllocateSmall(false, pmr, junk);
      }
      return answer.value;
    }

    /** One turn of SendMessage's loop. */
    static method SendOne(data: MailboxData<Mailbox>, isLarge: bool, lab: Label, value: seq<Byte>, receiver: Mailbox,
                          pmr: Option<Block>, junk: seq<Byte>)
      returns (ok: bool, ghost o: System.Outcome)
      requires data.Valid() && data.initialized && data.mutex.held && |value| <= data.LargeSize()
      requires isLarge <==> |value| > data.SmallSize()
      requires data.CanProvide(pmr, junk, data.resources.sizes.EltSize(PoolFor(isLarge)))
      modifies data.Pools(), receiver.queue
      ensures data.Valid() && data.resources == old(data.resources)
      ensures o == Fate(true, old(data.PoolAt(isLarge).size), pmr,
                        receiver.queue.capacity, old(|receiver.queue.elements|))
      ensures ok <==> o.Accepted?
      ensures data.PoolAt(isLarge).size == old(data.PoolAt(isLarge).size) - (if o.Took() then 1 else 0)
      ensures data.PoolAt(!isLarge).size == old(data.PoolAt(!isLarge).size)
      ensures data.Blocks() ==
              if o.Took() then old(data.Blocks())[pmr.value := Copied(value, Cell(PoolFor(isLarge), junk))]
              else old(data.Blocks())
      ensures receiver.queue.elements ==
              old(receiver.queue.elements) +
              (if o.Accepted? then [DataMessage(lab, |value|, pmr.value)] else [])
    {
      var db := Allocate(data, isLarge, pmr, junk);
      ok := false;
      o := System.NoBlock;
      if db.data.Some? {
        var stored := data.Store(db, value);
        if stored {
          ok := receiver.queue.Emplace(DataMessage(lab, |value|, db.data.value));
          o := if ok then System.Accepted(pmr) else System.Refused;
        } else {
          assert false;  // the clean-up that frees into the small pool
        }
      }
    }

    /** SendOne at slot k of broadcast c. */
    static method TakeTurn(data: MailboxData<Mailbox>, lab: Label, value: seq<Byte>, receiver: Mailbox,
                           pmr: seq<Option<Block>>, junk: seq<seq<Byte>>, k: nat,
                           ghost c: Broadcast<Mailbox>, ghost net: Net<Mailbox>)
      returns (ok: bool)
      requires data.Valid() && data.initialized && data.mutex.held
      requires Underway(data, lab, value, pmr, junk, c, net, k) && k < |c.slots| && c.slots[k] == Some(receiver)
      requires c.pmr[k].Some? ==> c.pmr[k].value !in NetAt(c, net, k).blocks
      modifies data.Pools(), receiver.queue
      ensures data.Valid() && data.resources == old(data.resources) && data.Slots(lab) == c.slots
      ensures View(data, |value| > data.SmallSize(), c.caps.Keys) == Turn(c, NetAt(c, net, k), k)
      ensures var other := |value| <= data.SmallSize(); data.PoolAt(other).size == old(data.PoolAt(other).size)
      ensures ok <==> OutcomeAt(c, NetAt(c, net, k), k).Accepted?
    {
      var isLarge := |value| > data.SmallSize();
      ghost var now := View(data, isLarge, c.caps.Keys);
      ghost var o;
      ok, o := SendOne(data, isLarge, lab, value, receiver, pmr[k], junk[k]);
      TurnIs(data, isLarge, c, k, now, receiver);
    }

    /** What the loop does for slot k. */
    static method ToSlot(data: MailboxData<Mailbox>, lab: Label, value: seq<Byte>,
                         pmr: seq<Option<Block>>, junk: seq<seq<Byte>>, k: nat, sofar: bool,
                         ghost c: Broadcast<Mailbox>, ghost net: Net<Mailbox>)
      returns (result: bool)
      requires data.Valid() && data.initialized && data.mutex.held
      requires Underway(data, lab, value, pmr, junk, c, net, k) && k < |c.slots|
      requires sofar <==> System.Clean(true, OutsAt(c, net, k))
      modifies data.Pools(), QueuesOf(c.caps.Keys)
      ensures data.Valid() && data.resources == old(data.resources)
      ensures Underway(data, lab, value, pmr, junk, c, net, k + 1)
      ensures var other := |value| <= data.SmallSize(); data.PoolAt(other).size == old(data.PoolAt(other).size)
      ensures result <==> System.Clean(true, OutsAt(c, net, k + 1))
    {
      TurnFacts(c, net, k);
      result := sofar;
      var slot := data.resources.mailboxes[lab].receivers[k];
      if slot.Some? {
        var ok := TakeTurn(data, lab, value, slot.value, pmr, junk, k, c, net);
        result := result && ok;
      }
    }

    /** The loop of SendMessage. */
    static method ToAll(data: MailboxData<Mailbox>, lab: Label, value: seq<Byte>,
                        pmr: seq<Option<Block>>, junk: seq<seq<Byte>>,
                        ghost c: Broadcast<Mailbox>, ghost net: Net<Mailbox>)
      returns (result: bool)
      requires data.Valid() && data.initialized && data.mutex.held
      requires Underway(data, lab, value, pmr, junk, c, net, 0)
      modifies data.Pools(), QueuesOf(c.caps.Keys)
      ensures data.Valid() && Underway(data, lab, value, pmr, junk, c, net, |c.slots|)
      ensures var other := |value| <= data.SmallSize(); data.PoolAt(other).size == old(data.PoolAt(other).size)
      ensures result <==> System.Clean(true, OutsAt(c, net, |c.slots|))
    {
      result := true;
      var i := 0;
      while i < MAX_RECEIVERS
        invariant i <= MAX_RECEIVERS == |c.slots|
        invariant data.Valid() && data.resources == old(data.resources)
        invariant Underway(data, lab, value, pmr, junk, c, net, i)
        invariant var other := |value| <= data.SmallSize(); data.PoolAt(other).size == old(data.PoolAt(other).size)
        invariant result <==> System.Clean(true, OutsAt(c, net, i))
      {
        result := ToSlot(data, lab, value, pmr, junk, i, result, c, net);
        i := i + 1;
      }
    }

    /** SendMessage with the mutex held. */
    static method SendLocked(data: MailboxData<Mailbox>, lab: Label, value: seq<Byte>,
                             pmr: seq<Option<Block>>, junk: seq<seq<Byte>>,
                             ghost c: Broadcast<Mailbox>, ghost net: Net<Mailbox>)
      returns (result: bool)
      requires data.Valid() && data.mutex.held && 0 < |value|
      requires |value| <= data.LargeSize() ==> Underway(data, lab, value, pmr, junk, c, net, 0)
      modifies data.Pools(), if |value| <= data.LargeSize() then QueuesOf(c.caps.Keys) else {}
      ensures data.Valid()
      ensures |value| > data.LargeSize() ==> !result
      ensures |value| <= data.LargeSize() ==>
                var isLarge := |value| > data.SmallSize();
                && View(data, isLarge, c.caps.Keys) == NetAt(c, net, |c.slots|)
                && data.PoolAt(!isLarge).size == old(data.PoolAt(!isLarge).size)
                && (result <==> System.Clean(true, OutsAt(c, net, |c.slots|)))
    {
      result := true;
      if |value| > data.LargeSize() {
        return false;
      }
      result := ToAll(data, lab, value, pmr, junk, c, net);
    }

    /** What was true of the call stays true when the mutex is locked. */
    static method Lock(data: MailboxData<Mailbox>, lab: Label, value: seq<Byte>,
                       pmr: seq<Option<Block>>, junk: seq<seq<Byte>>,
                       ghost c: Broadcast<Mailbox>, ghost net: Net<Mailbox>)
      requires data.Valid() && !data.mutex.held && 0 < |value|
      requires |value| <= data.LargeSize() ==> Underway(data, lab, value, pmr, junk, c, net, 0)
      modifies data.mutex
      ensures data.Valid() && data.mutex.held
      ensures |value| <= data.LargeSize() ==> Underway(data, lab, value, pmr, junk, c, net, 0)
    {
      data.mutex.held := true;
    }

    static method Unlock(data: MailboxData<Mailbox>, isLarge: bool, ghost boxes: set<Mailbox>)
      requires data.Valid()
      modifies data.mutex
      ensures data.Valid() && !data.mutex.held
      ensures data.initialized ==> View(data, isLarge, boxes) == old(View(data, isLarge, boxes))
    {
      data.mutex.held := false;
    }

    /**
     * sizeof(T) is |value|, and so not 0. c and net are the call and the state it starts in. Before Initialize the large
     * size is 0, and the call returns at once: it never asks for the mutex it holds.
     */
    static method SendMessage(data: MailboxData<Mailbox>, lab: Label, value: seq<Byte>,
                              pmr: seq<Option<Block>>, junk: seq<seq<Byte>>,
                              ghost c: Broadcast<Mailbox>, ghost net: Net<Mailbox>)
      returns (r: Answer<bool>)
      requires data.Valid() && 0 < |value|
      requires |value| <= data.LargeSize() ==>
                 var slots, isLarge := data.Slots(lab), |value| > data.SmallSize();
                 && c == Broadcast(lab, Some(value), slots, Capacities(slots),
                                   if isLarge then Large else Small, pmr, junk)
                 && net == View(data, isLarge, Boxes(slots))
                 && Provided(c, net, data.resources.sizes) && Separate(Boxes(slots))
      modifies data.mutex, data.Pools(), if |value| <= data.LargeSize() then QueuesOf(Boxes(data.Slots(lab))) else {}
      ensures data.Valid() && data.mutex.held == old(data.mutex.held)
      ensures r.NeverReturns? <==> data.mutex.held
      ensures |value| > data.LargeSize() && r.Returned? ==> !r.value
      ensures |value| <= data.LargeSize() && r.Returned? ==>
                var isLarge := |value| > data.SmallSize();
                && View(data, isLarge, Boxes(c.slots)) == NetAt(c, net, |c.slots|)
                && data.PoolAt(!isLarge).size == old(data.PoolAt(!isLarge).size)
                && (r.value <==> System.Clean(true, OutsAt(c, net, |c.slots|)))
      ensures |value| <= data.LargeSize() && r == Returned(true) ==>
                forall i :: 0 <= i < |old(data.Slots(lab))| && old(data.Slots(lab))[i].Some? ==>
                  var m := old(data.Slots(lab))[i].value;
                  && old(m.queue.elements) <= m.queue.elements
                  && |m.queue.elements| == |old(m.queue.elements)| + multiset(old(data.Slots(lab)))[Some(m)]
    {
      if data.mutex.held {
        return NeverReturns;
      }
      Lock(data, lab, value, pmr, junk, c, net);
      var result := SendLocked(data, lab, value, pmr, junk, c, net);
      Unlock(data, |value| > data.SmallSize(), c.caps.Keys);
      if result {
        MessageGains(data, |value| > data.SmallSize(), c, net);
      }
      return Returned(result);
    }

    /** One slot of SendSignal: the result of emplace is not looked at. */
    static method SignalSlot(data: MailboxData<Mailbox>, lab: Label, slot: Option<Mailbox>,
                             ghost c: Broadcast<Mailbox>, ghost k: nat)
      requires data.Valid() && data.initialized
      requires Fits(c, View(data, false, c.caps.Keys)) && Separate(c.caps.Keys)
      requires c.lab == lab && c.data == None && forall m :: m in c.caps ==> c.caps[m] == m.queue.capacity
      requires k < |c.slots| && c.slots[k] == slot
      modifies if slot.Some? then {slot.value.queue} else {}
      ensures data.Valid()
      ensures View(data, false, c.caps.Keys) == Turn(c, old(View(data, false, c.caps.Keys)), k)
    {
      if slot.Some? {
        ghost var after := Turn(c, View(data, false, c.caps.Keys), k);
        var _ := slot.value.queue.Emplace(SignalMessage(lab));
        assert View(data, false, c.caps.Keys).queues == after.queues;
      }
    }

    static method SignalLocked(data: MailboxData<Mailbox>, lab: Label,
                               ghost c: Broadcast<Mailbox>, ghost net: Net<Mailbox>)
      requires data.Valid() && data.initialized && data.mutex.held && Separate(c.caps.Keys)
      requires c == SignalCall(data, lab) && net == View(data, false, c.caps.Keys)
      modifies QueuesOf(c.caps.Keys)
      ensures data.Valid()
      ensures Fits(c, net) && View(data, false, c.caps.Keys) == NetAt(c, net, |c.slots|)
    {
      var receivers := data.resources.mailboxes[lab].receivers;
      var i := 0;
      while i < receivers.Length
        invariant i <= receivers.Length == |c.slots|
        invariant data.Valid() && receivers[..] == c.slots
        invariant View(data, false, c.caps.Keys) == NetAt(c, net, i)
      {
        assert receivers[i] == c.slots[i];
        SignalSlot(data, lab, receivers[i], c, i);
        i := i + 1;
      }
    }

    static method LockSignal(data: MailboxData<Mailbox>, lab: Label,
                             ghost c: Broadcast<Mailbox>, ghost net: Net<Mailbox>)
      requires data.Valid() && data.initialized && !data.mutex.held
      requires c == SignalCall(data, lab) && net == View(data, false, c.caps.Keys)
      modifies data.mutex
      ensures data.Valid() && data.mutex.held
      ensures c == SignalCall(data, lab) && net == View(data, false, c.caps.Keys)
    {
      data.mutex.held := true;
    }

    /** A queue gets one signal for each slot its mailbox has, as far as there is room; no other queue changes. */
    static method SendSignal(data: MailboxData<Mailbox>, lab: Label) returns (r: Answer<bool>)
      requires data.Valid() && data.initialized && Separate(Boxes(data.Slots(lab)))
      modifies data.mutex, QueuesOf(Boxes(data.Slots(lab)))
      ensures data.Valid() && data.mutex.held == old(data.mutex.held)
      ensures r == if data.mutex.held then NeverReturns else Returned(true)
      ensures r.Returned? ==>
                forall i :: 0 <= i < |old(data.Slots(lab))| && old(data.Slots(lab))[i].Some? ==>
                  var m := old(data.Slots(lab))[i].value;
                  m.queue.elements ==
                  old(m.queue.elements) +
                  Signals(lab, Gain(multiset(old(data.Slots(lab)))[Some(m)],
                                    m.queue.capacity, |old(m.queue.elements)|))
    {
      if data.mutex.held {
        return NeverReturns;
      }
      ghost var c := SignalCall(data, lab);
      ghost var net := View(data, false, c.caps.Keys);
      LockSignal(data, lab, c, net);
      SignalLocked(data, lab, c, net);
      Unlock(data, false, c.caps.Keys);
      SignalGains(data, c, net);
      return Returned(true);
    }

    /** Receive returns once pop has found a message. */
    method Receive() returns (r: Answer<Message>)
      modifies queue
      ensures queue.elements == PoppedFrom(old(queue.elements))
      ensures r == if old(queue.elements) == [] then NeverReturns else Returned(old(queue.elements)[0])
    {
      r := queue.Pop();
    }

    /**
     * The pool is chosen from the 16-bit size, whatever pool the block came from. The client has not released the message
     * before. Nothing happens before Initialize.
     */
    static method ReleaseMessage(data: MailboxData<Mailbox>, msg: Message)
      requires data.Valid() && (data.initialized && msg.data.Some? ==> msg.data.value in data.Blocks())
      modifies data.Pools()
      ensures data.Valid()
      ensures data.initialized ==> Released(old(data.Blocks()), data.Blocks(), msg)
      ensures data.initialized ==>
                var back := data.resources.sizes.ReleasePool(msg.size);
                && data.PoolAt(back.Large?).size == old(data.PoolAt(back.Large?).size) + One(msg.data.Some?)
                && data.PoolAt(back.Small?).size == old(data.PoolAt(back.Small?).size)
                && (msg.data.Some? && old(data.Balanced()) ==>
                      (data.Balanced() <==> old(data.Blocks()[msg.data.value].pool) == back))
    {
      if msg.data.Some? {
        if msg.size <= data.SmallSize() {
          data.FreeSmall(msg.data);
        } else {
          data.FreeLarge(msg.data);
        }
      }
    }
  }

  ghost predicate Released(before: map<Block, Cell>, after: map<Block, Cell>, msg: Message) {
    after == if msg.data.Some? then before - {msg.data.value} else before
  }

  /** Releases a received message when it goes out of scope. */
  class MessageGuard {
    const data: MailboxData<Mailbox>
    const msg: Message

    constructor (data: MailboxData<Mailbox>, msg: Message)
      ensures this.data == data && this.msg == msg
    {
      this.data, this.msg := data, msg;
    }

    method Destroy()
      requires data.Valid() && (data.initialized && msg.data.Some? ==> msg.data.value in data.Blocks())
      modifies data.Pools()
      ensures data.Valid()
      ensures data.initialized ==> Released(old(data.Blocks()), data.Blocks(), msg)
      ensures data.initialized ==>
                var back := data.resources.sizes.ReleasePool(msg.size);
                && data.PoolAt(back.Large?).size == old(data.PoolAt(back.Large?).size) + One(msg.data.Some?)
                && data.PoolAt(back.Small?).size == old(data.PoolAt(back.Small?).size)
    {
      if msg.data.Some? {
        Mailbox.ReleaseMessage(data, msg);
      }
    }
  }
}

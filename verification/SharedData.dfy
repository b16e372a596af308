/** The state shared by all mailboxes: include/msglib/detail/MailboxData.h. */
module SharedData {
  import opened Messages
  import opened Receiver
  import opened BytePools

  const SMALL_SIZE: nat := 256
  const SMALL_CAP: nat := 200
  const LARGE_SIZE: nat := 2048
  const LARGE_CAP: nat := 200
  const MAX_RECEIVERS: nat := 3

  function DefaultSizes(): Sizes {
    Sizes(SMALL_SIZE, SMALL_CAP, LARGE_SIZE, LARGE_CAP)
  }

  /** The array of 65536 empty Receivers. */
  method AllReceivers<M(==)>() returns (all: seq<Receivers<M>>)
    ensures |all| == 65536
    ensures forall i :: 0 <= i < |all| ==>
              fresh(all[i].receivers) && all[i].receivers[..] == Empties(MAX_RECEIVERS)
    ensures forall i, j :: 0 <= i < j < |all| ==> all[i].receivers != all[j].receivers
  {
    all := [];
    while |all| < 65536
      invariant |all| <= 65536
      invariant forall i :: 0 <= i < |all| ==>
                  fresh(all[i].receivers) && all[i].receivers[..] == Empties(MAX_RECEIVERS)
      invariant forall i, j :: 0 <= i < j < |all| ==> all[i].receivers != all[j].receivers
    {
      var r := new Receivers<M>(MAX_RECEIVERS);
      all := all + [r];
    }
  }

  class Resources<M(==)> {
    const sizes: Sizes
    const memory: Memory
    const smallPool: BytePool
    const largePool: BytePool
    const mailboxes: seq<Receivers<M>>

    constructor (z: Sizes)
      ensures Valid() && Balanced() && fresh(Footprint()) && sizes == z
      ensures smallPool.size == z.smallCap && largePool.size == z.largeCap && memory.blocks == map[]
      ensures forall l: Label :: Slots(l) == Empties(MAX_RECEIVERS)
    {
      sizes := z;
      var memory := new Memory();
      this.memory := memory;
      smallPool := new BytePool(Small, z.smallSize, z.smallCap, memory);
      largePool := new BytePool(Large, z.largeSize, z.largeCap, memory);
      var all := AllReceivers<M>();
      mailboxes := all;
    }

    ghost function Footprint(): set<object> {
      {memory, smallPool, largePool} + (set i | 0 <= i < |mailboxes| :: mailboxes[i].receivers)
    }

    ghost predicate Valid()
      reads Footprint()
    {
      && |mailboxes| == 65536
      && (forall i :: 0 <= i < 65536 ==> mailboxes[i].receivers.Length == MAX_RECEIVERS)
      && (forall i, j :: 0 <= i < j < 65536 ==> mailboxes[i].receivers != mailboxes[j].receivers)
      && smallPool.memory == memory == largePool.memory && smallPool != largePool
      && smallPool.which == Small && smallPool.eltSize == sizes.smallSize && smallPool.capacity == sizes.smallCap
      && largePool.which == Large && largePool.eltSize == sizes.largeSize && largePool.capacity == sizes.largeCap
    }

    /** With no operation in flight both counters are exact. */
    ghost predicate Balanced()
      requires Valid()
      reads Footprint()
    {
      smallPool.Balanced() && largePool.Balanced()
    }

    ghost function Slots(l: Label): seq<Option<M>>
      reads Footprint()
      requires |mailboxes| == 65536
    {
      mailboxes[l].receivers[..]
    }
  }

  /** A mutex that is not recursive, as one thread sees it: a thread that locks it twice never returns. */
  class Mutex {
    var held: bool

    constructor ()
      ensures !held
    {
      held := false;
    }
  }

  class MailboxData<M(==)> {
    const mutex: Mutex
    var initialized: bool
    var resources: Resources?<M>

    constructor ()
      ensures Valid() && !initialized && fresh(mutex) && !mutex.held
    {
      mutex := new Mutex();
      initialized, resources := false, null;
    }

    ghost function Footprint(): set<object>
      reads this
    {
      if resources == null then {} else resources.Footprint()
    }

    ghost predicate Valid()
      reads this, Footprint()
    {
      && (initialized <==> resources != null)
      && (resources != null ==> resources.Valid())
    }

    ghost predicate Balanced()
      requires initialized && Valid()
      reads this, Footprint()
    {
      resources.Balanced()
    }

    ghost function Slots(l: Label): seq<Option<M>>
      requires initialized && Valid()
      reads this, Footprint()
    {
      resources.Slots(l)
    }

    function SmallSize(): nat
      reads this
    {
      if resources != null then resources.sizes.smallSize else 0
    }

    function LargeSize(): nat
      reads this
    {
      if resources != null then resources.sizes.largeSize else 0
    }

    /** oom: creating the resources throws. Only the first call that succeeds fixes the sizes. */
    method Initialize(z: Sizes, oom: bool) returns (r: Answer<bool>)
      requires Valid()
      modifies this, mutex
      ensures Valid() && mutex.held == old(mutex.held)
      ensures r == if mutex.held then NeverReturns else Returned(!old(initialized) && !oom)
      ensures r == Returned(true) ==>
                && initialized && Balanced() && fresh(Footprint()) && resources.sizes == z
                && resources.smallPool.size == z.smallCap && resources.largePool.size == z.largeCap
                && resources.memory.blocks == map[] && forall l: Label :: Slots(l) == Empties(MAX_RECEIVERS)
      ensures r != Returned(true) ==> unchanged(this)
    {
      if mutex.held {
        return NeverReturns;
      }
      mutex.held := true;
      if !initialized {
        if oom {
          mutex.held := false;
          return Returned(false);
        }
        resources := new Resources(z);
        initialized := true;
      } else {
        mutex.held := false;
        return Returned(false);
      }
      mutex.held := false;
      return Returned(true);
    }

    /** Only a call that finds the data uninitialized can initialize it. */
    ghost function Uninitialized(): set<object>
      reads this
    {
      if initialized then {} else {this, mutex}
    }

    ghost function SlotsOf(l: Label): set<object>
      requires Valid()
      reads this, Footprint()
    {
      if initialized then {resources.mailboxes[l].receivers} else {}
    }

    /** Before Initialize the call locks the mutex and then asks for it again. */
    method RegisterForLabel(l: Label, mbox: M) returns (r: Answer<bool>)
      requires Valid()
      modifies SlotsOf(l), Uninitialized(), mutex
      ensures Valid() && unchanged(this)
      ensures r.NeverReturns? <==> old(mutex.held) || !initialized
      ensures mutex.held == r.NeverReturns?
      ensures r.Returned? ==> Slots(l) == AddSlot(old(Slots(l)), mbox) && (r.value <==> None in old(Slots(l)))
      ensures initialized ==> forall k: Label :: k != l || r.NeverReturns? ==> Slots(k) == old(Slots(k))
    {
      if mutex.held {
        return NeverReturns;
      }
      mutex.held := true;
      if !initialized {
        var again := Initialize(DefaultSizes(), false);
        if again.NeverReturns? {
          return NeverReturns;
        }
      }
      var added := resources.mailboxes[l].Add(mbox);
      mutex.held := false;
      return Returned(added);
    }

    method UnregisterForLabel(l: Label, mbox: M) returns (r: Answer<bool>)
      requires Valid()
      modifies SlotsOf(l), Uninitialized(), mutex
      ensures Valid() && unchanged(this)
      ensures r == if old(mutex.held) || !initialized then NeverReturns else Returned(true)
      ensures mutex.held == r.NeverReturns?
      ensures r.Returned? ==> Slots(l) == RemoveSlot(old(Slots(l)), mbox)
      ensures initialized ==> forall k: Label :: k != l || r.NeverReturns? ==> Slots(k) == old(Slots(k))
    {
      if mutex.held {
        return NeverReturns;
      }
      mutex.held := true;
      if !initialized {
        var again := Initialize(DefaultSizes(), false);
        if again.NeverReturns? {
          return NeverReturns;
        }
      }
      var _ := resources.mailboxes[l].Remove(mbox);
      mutex.held := false;
      return Returned(true);
    }

    ghost function Pools(): set<object>
      requires Valid()
      reads this, Footprint()
    {
      if initialized then {resources.smallPool, resources.largePool, resources.memory} else {}
    }

    ghost function SmallPool(): BytePool
      requires initialized && Valid()
      reads this, Footprint()
    {
      resources.smallPool
    }

    ghost function LargePool(): BytePool
      requires initialized && Valid()
      reads this, Footprint()
    {
      resources.largePool
    }

    ghost function PoolAt(large: bool): BytePool
      requires initialized && Valid()
      reads this, Footprint()
    {
      if large then resources.largePool else resources.smallPool
    }

    ghost function Blocks(): map<Block, Cell>
      requires initialized && Valid()
      reads this, Footprint()
    {
      resources.memory.blocks
    }

    /** The memory resource never hands out a block that is in use. */
    ghost predicate CanProvide(pmr: Option<Block>, junk: seq<Byte>, size: nat)
      requires initialized && Valid()
      reads this, Footprint()
    {
      pmr.Some? ==> pmr.value !in Blocks() && |junk| == size
    }
    /**
     * A caller that does not hold the mutex gets the default pools when there are none yet. oom: creating them throws,
     * and then a null pointer is dereferenced.
     */
    method AllocateSmall(oom: bool, pmr: Option<Block>, junk: seq<Byte>) returns (r: Answer<DataBlock>)
      requires Valid() && (initialized ==> CanProvide(pmr, junk, resources.sizes.smallSize))
      requires !initialized && !mutex.held ==> !oom && (pmr.Some? ==> |junk| == SMALL_SIZE)
      modifies Pools(), Uninitialized()
      ensures Valid() && mutex.held == old(mutex.held)
      ensures r.NeverReturns? <==> !old(initialized) && mutex.held
      ensures old(initialized) || mutex.held ==> unchanged(this)
      ensures old(initialized) ==>
                && LargePool().size == old(LargePool().size)
                && (r.value.data.Some? <==> old(SmallPool().size) > 0 && pmr.Some?)
                && (r.value.data.Some? ==>
                      && r.value == DataBlock(resources.sizes.smallSize, pmr)
                      && SmallPool().size == old(SmallPool().size) - 1
                      && Blocks() == old(Blocks())[pmr.value := Cell(Small, junk)])
                && (r.value.data.None? ==>
                      SmallPool().size == old(SmallPool().size) && Blocks() == old(Blocks()))
                && (old(Balanced()) ==> Balanced())
      ensures !old(initialized) && !mutex.held ==>
                && initialized && fresh(Footprint()) && resources.sizes == DefaultSizes() && Balanced()
                && r.value == (if pmr.Some? then DataBlock(SMALL_SIZE, pmr) else DataBlock(0, None))
                && SmallPool().size == SMALL_CAP - One(pmr.Some?) && LargePool().size == LARGE_CAP
                && Blocks() == if pmr.Some? then map[pmr.value := Cell(Small, junk)] else map[]
    {
      if !initialized {
        var again := Initialize(DefaultSizes(), oom);
        if again.NeverReturns? {
          return NeverReturns;
        }
      }
      ghost var others := resources.largePool.Outstanding();
      var db := resources.smallPool.Alloc(pmr, junk);
      assert resources.largePool.Outstanding() == others;
      return Returned(db);
    }

    /**
     * A caller that does not hold the mutex gets the default pools when there are none yet. oom: creating them throws,
     * and then a null pointer is dereferenced.
     */
    method AllocateLarge(oom: bool, pmr: Option<Block>, junk: seq<Byte>) returns (r: Answer<DataBlock>)
      requires Valid() && (initialized ==> CanProvide(pmr, junk, resources.sizes.largeSize))
      requires !initialized && !mutex.held ==> !oom && (pmr.Some? ==> |junk| == LARGE_SIZE)
      modifies Pools(), Uninitialized()
      ensures Valid() && mutex.held == old(mutex.held)
      ensures r.NeverReturns? <==> !old(initialized) && mutex.held
      ensures old(initialized) || mutex.held ==> unchanged(this)
      ensures old(initialized) ==>
                && SmallPool().size == old(SmallPool().size)
                && (r.value.data.Some? <==> old(LargePool().size) > 0 && pmr.Some?)
                && (r.value.data.Some? ==>
                      && r.value == DataBlock(resources.sizes.largeSize, pmr)
                      && LargePool().size == old(LargePool().size) - 1
                      && Blocks() == old(Blocks())[pmr.value := Cell(Large, junk)])
                && (r.value.data.None? ==>
                      LargePool().size == old(LargePool().size) && Blocks() == old(Blocks()))
                && (old(Balanced()) ==> Balanced())
      ensures !old(initialized) && !mutex.held ==>
                && initialized && fresh(Footprint()) && resources.sizes == DefaultSizes() && Balanced()
                && r.value == (if pmr.Some? then DataBlock(LARGE_SIZE, pmr) else DataBlock(0, None))
                && LargePool().size == LARGE_CAP - One(pmr.Some?) && SmallPool().size == SMALL_CAP
                && Blocks() == if pmr.Some? then map[pmr.value := Cell(Large, junk)] else map[]
    {
      if !initialized {
        var again := Initialize(DefaultSizes(), oom);
        if again.NeverReturns? {
          return NeverReturns;
        }
      }
      ghost var others := resources.smallPool.Outstanding();
      var db := resources.largePool.Alloc(pmr, junk);
      assert resources.smallPool.Outstanding() == others;
      return Returned(db);
    }

    /** Gives any block in use to the small pool, whichever it came from. */
    method FreeSmall(b: Option<Block>)
      requires Valid() && (initialized && b.Some? ==> b.value in Blocks())
      modifies Pools()
      ensures Valid()
      ensures initialized ==>
                && LargePool().size == old(LargePool().size)
                && SmallPool().size == old(SmallPool().size) + One(b.Some?)
                && Blocks() == if b.Some? then old(Blocks()) - {b.value} else old(Blocks())
      ensures initialized && b.Some? && old(Balanced()) ==> (Balanced() <==> old(Blocks()[b.value].pool) == Small)
    {
      if resources != null {
        ghost var others := resources.largePool.Outstanding();
        ghost var own := b.Some? ==> resources.memory.blocks[b.value].pool == Small;
        resources.smallPool.Free(b);
        assert own ==> resources.largePool.Outstanding() == others;
      }
    }

    /** Gives any block in use to the large pool, whichever it came from. */
    method FreeLarge(b: Option<Block>)
      requires Valid() && (initialized && b.Some? ==> b.value in Blocks())
      modifies Pools()
      ensures Valid()
      ensures initialized ==>
                && SmallPool().size == old(SmallPool().size)
                && LargePool().size == old(LargePool().size) + One(b.Some?)
                && Blocks() == if b.Some? then old(Blocks()) - {b.value} else old(Blocks())
      ensures initialized && b.Some? && old(Balanced()) ==> (Balanced() <==> old(Blocks()[b.value].pool) == Large)
    {
      if resources != null {
        ghost var others := resources.smallPool.Outstanding();
        ghost var own := b.Some? ==> resources.memory.blocks[b.value].pool == Large;
        resources.largePool.Free(b);
        assert own ==> resources.smallPool.Outstanding() == others;
      }
    }

    /** DataBlock::put on a block of the shared memory. */
    method Store(db: DataBlock, value: seq<Byte>) returns (ok: bool)
      requires Valid() && initialized
      requires db.data.Some? ==> db.data.value in Blocks() && |Blocks()[db.data.value].bytes| == db.size
      modifies resources.memory
      ensures Valid()
      ensures ok <==> db.data.Some? && |value| <= db.size
      ensures Blocks() == if ok then old(Blocks())[db.data.value := Copied(value, old(Blocks())[db.data.value])]
                          else old(Blocks())
      ensures old(Balanced()) ==> Balanced()
    {
      ghost var small, large := resources.smallPool.Outstanding(), resources.largePool.Outstanding();
      ok := Put(resources.memory, db, value);
      assert resources.smallPool.Outstanding() == small && resources.largePool.Outstanding() == large;
    }
  }
}

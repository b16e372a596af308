/** The fixed-block pools of include/msglib/detail/BytePool.h. */
module BytePools {
  import opened Messages

  /** The polymorphic memory resource: the blocks it has handed out. */
  class Memory {
    var blocks: map<Block, Cell>

    constructor ()
      ensures blocks == map[]
    {
      blocks := map[];
    }
  }

  /** A failed allocation has no data. */
  datatype DataBlock = DataBlock(size: nat, data: Option<Block>)

  /** DataBlock::put copies the value when the buffer is there and large enough. */
  method Put(memory: Memory, db: DataBlock, value: seq<Byte>) returns (ok: bool)
    requires db.data.Some? ==> db.data.value in memory.blocks && |memory.blocks[db.data.value].bytes| == db.size
    modifies memory
    ensures ok <==> db.data.Some? && |value| <= db.size
    ensures !ok ==> memory.blocks == old(memory.blocks)
    ensures ok ==>
              memory.blocks == old(memory.blocks)[db.data.value := Copied(value, old(memory.blocks)[db.data.value])]
    ensures ok ==>
              var now, was := memory.blocks[db.data.value].bytes, old(memory.blocks[db.data.value].bytes);
              |now| == |was| && now[..|value|] == value && now[|value|..] == was[|value|..]
  {
    if db.data.Some? && |value| <= db.size {
      var b := db.data.value;
      memory.blocks := memory.blocks[b := Copied(value, memory.blocks[b])];
      return true;
    }
    return false;
  }

  class BytePool {
    const which: Pool
    const eltSize: nat
    const capacity: nat
    const memory: Memory
    var size: int

    constructor (p: Pool, eltSize: nat, capacity: nat, memory: Memory)
      ensures this.which == p && this.eltSize == eltSize && this.capacity == capacity && this.memory == memory
      ensures size == capacity
    {
      this.which, this.eltSize, this.capacity, this.memory := p, eltSize, capacity, memory;
      this.size := capacity;
    }

    ghost function Outstanding(): set<Block>
      reads memory
    {
      set b | b in memory.blocks && memory.blocks[b].pool == which
    }

    /** With no operation in flight, the counter and the blocks in use make up the capacity. */
    ghost predicate Balanced()
      reads this, memory
    {
      0 <= size && size + |Outstanding()| == capacity
    }

    /** pmr is the block the memory resource comes up with, None if it throws; junk is what the block contains. */
    method Alloc(pmr: Option<Block>, junk: seq<Byte>) returns (db: DataBlock)
      requires pmr.Some? ==> pmr.value !in memory.blocks && |junk| == eltSize
      modifies this`size, memory
      ensures old(Balanced()) ==> Balanced()
      ensures db.data.Some? <==> old(size) > 0 && pmr.Some?
      ensures db.data.Some? ==>
                && db == DataBlock(eltSize, pmr) && size == old(size) - 1
                && memory.blocks == old(memory.blocks)[pmr.value := Cell(which, junk)]
      ensures db.data.None? ==> size == old(size) && memory.blocks == old(memory.blocks) && db.size == 0
    {
      if size > 0 {
        if pmr.Some? {
          ghost var before := Outstanding();
          memory.blocks := memory.blocks[pmr.value := Cell(which, junk)];
          assert Outstanding() == before + {pmr.value};
          size := size - 1;
          return DataBlock(eltSize, pmr);
        }
        return DataBlock(0, None);
      }
      return DataBlock(0, None);
    }

    /** Takes back any block in use. The pool stays balanced exactly when the block is one of its own. */
    method Free(t: Option<Block>)
      requires t.Some? ==> t.value in memory.blocks
      modifies this`size, memory
      ensures t.None? ==> size == old(size) && memory.blocks == old(memory.blocks)
      ensures t.Some? ==> size == old(size) + 1 && memory.blocks == old(memory.blocks) - {t.value}
      ensures t.Some? && old(Balanced()) ==> (Balanced() <==> old(memory.blocks[t.value].pool) == which)
    {
      if t.Some? {
        ghost var before := Outstanding();
        ghost var own := memory.blocks[t.value].pool == which;
        memory.blocks := memory.blocks - {t.value};
        assert Outstanding() == if own then before - {t.value} else before;
        size := size + 1;
      }
    }
  }
}

/** Values shared by the whole model, and the message of include/msglib/Message.h. */
module Messages {

  datatype Option<+T> = None | Some(value: T)

  /** The answer to a call made by a thread on its own: a wait that only another thread could end never returns. */
  datatype Answer<+T> = Returned(value: T) | NeverReturns

  function One(b: bool): nat {
    if b then 1 else 0
  }

  /** Concatenation may be grouped either way. */
  lemma Append<T>(q: seq<T>, r: seq<T>, x: seq<T>)
    ensures (q + r) + x == q + (r + x)
  {
  }

  type Byte = b: int | 0 <= b < 256

  type Label = l: int | 0 <= l < 65536

  /** The address of a block handed out by the polymorphic memory resource. */
  type Block = nat

  datatype Pool = Small | Large

  /** A block in use: the pool it was taken from and its bytes. */
  datatype Cell = Cell(pool: Pool, bytes: seq<Byte>)

  /** memcpy of a value to the start of a block. */
  function Copied(data: seq<Byte>, cell: Cell): Cell
    requires |data| <= |cell.bytes|
  {
    Cell(cell.pool, data + cell.bytes[|data|..])
  }

  /** The conversion of a size_t to the uint16_t constructor parameter. */
  function Narrow(size: nat): nat {
    size % 65536
  }

  /** A null m_data is None. */
  datatype Message = Message(data: Option<Block>, lab: Label, size: nat) {

    /** The value found behind as<T>(), for a trivially copyable T with sizeof(T) == tsize. */
    function As(heap: map<Block, Cell>, tsize: nat): Option<seq<Byte>> {
      if data.Some? && data.value in heap && tsize == size && tsize <= |heap[data.value].bytes|
      then Some(heap[data.value].bytes[..tsize])
      else None
    }
  }

  function SignalMessage(lab: Label): Message {
    Message(None, lab, 0)
  }

  function DataMessage(lab: Label, size: nat, b: Block): Message {
    Message(Some(b), lab, Narrow(size))
  }

  /** The pool sizes and capacities fixed by the first successful Initialize. */
  datatype Sizes = Sizes(smallSize: nat, smallCap: nat, largeSize: nat, largeCap: nat) {

    function EltSize(p: Pool): nat {
      if p == Small then smallSize else largeSize
    }

    function Cap(p: Pool): nat {
      if p == Small then smallCap else largeCap
    }

    /** SendMessage's choice, made from sizeof(T). */
    function SendPool(size: nat): Pool {
      if size > smallSize then Large else Small
    }

    /** ReleaseMessage's choice, made from the 16-bit m_size. */
    function ReleasePool(size: nat): Pool {
      if size <= smallSize then Small else Large
    }

    /** A condition on the configuration alone under which no size is narrowed across the pool boundary. */
    predicate RoutesOk() {
      largeSize < 65536 || largeSize <= smallSize
    }
  }

  /**
   * Every size SendMessage accepts goes back to its own pool exactly when RoutesOk.
   * The order of the two pool sizes does not matter.
   */
  lemma RoutingIff(z: Sizes)
    ensures z.RoutesOk() <==>
            forall size: nat :: 0 < size <= z.largeSize ==> z.ReleasePool(Narrow(size)) == z.SendPool(size)
  {
    if !z.RoutesOk() {
      var bad := if z.smallSize < 65536 then 65536 else z.largeSize;
      assert 0 < bad <= z.largeSize;
      assert z.ReleasePool(Narrow(bad)) == Small && z.SendPool(bad) == Large;
    }
  }

  /** A block from the chosen pool always has room for an accepted message, and a small block is taken when it has. */
  lemma AcceptedFits(z: Sizes, size: nat)
    requires size <= z.largeSize
    ensures size <= z.EltSize(z.SendPool(size))
    ensures size <= z.EltSize(Small) ==> z.SendPool(size) == Small
  {
  }

  /**
   * as<T> gives back a message's value exactly when its size survived the narrowing;
   * no other size of T is ever accepted for it, and none at all for a message without data.
   */
  lemma AsIff(heap: map<Block, Cell>, lab: Label, data: seq<Byte>, b: Block, tsize: nat)
    requires b in heap && |data| <= |heap[b].bytes| && heap[b].bytes[..|data|] == data
    ensures DataMessage(lab, |data|, b).As(heap, |data|) == Some(data) <==> |data| < 65536
    ensures DataMessage(lab, |data|, b).As(heap, tsize).Some? <==> tsize == |data| % 65536
    ensures forall msg: Message {:trigger msg.As(heap, tsize)} :: msg.data.None? ==> msg.As(heap, tsize) == None
  {
    assert |data| % 65536 <= |data|;
    assert |data| % 65536 == |data| <==> |data| < 65536;
  }
}

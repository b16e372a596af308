/** The bounded queue of include/msglib/detail/Queue.h, inside its mutex. */
module Queues {
  import opened Messages

  function EmplacedOn<T>(q: seq<T>, capacity: nat, x: T): seq<T> {
    if |q| < capacity then q + [x] else q
  }

  function PoppedFrom<T>(q: seq<T>): seq<T> {
    if q == [] then q else q[1..]
  }

  class Queue<T> {
    var elements: seq<T>
    const capacity: nat

    constructor (cap: nat)
      ensures elements == [] && capacity == cap
    {
      elements, capacity := [], cap;
    }

    method Emplace(x: T) returns (ok: bool)
      modifies this`elements
      ensures elements == EmplacedOn(old(elements), capacity, x)
      ensures ok <==> |old(elements)| < capacity
    {
      if |elements| < capacity {
        elements := elements + [x];
        return true;
      }
      return false;
    }

    /** tryPop; popWait after its wait has ended is the same. */
    method TryPop() returns (value: Option<T>)
      modifies this`elements
      ensures elements == PoppedFrom(old(elements))
      ensures value == if old(elements) == [] then None else Some(old(elements)[0])
    {
      if elements == [] {
        return None;
      }
      value := Some(elements[0]);
      elements := elements[1..];
    }

    /** pop waits until there is an element; no other thread runs here to put one in. */
    method Pop() returns (r: Answer<T>)
      modifies this`elements
      ensures elements == PoppedFrom(old(elements))
      ensures r == if old(elements) == [] then NeverReturns else Returned(old(elements)[0])
    {
      if elements == [] {
        return NeverReturns;
      }
      r := Returned(elements[0]);
      elements := elements[1..];
    }
  }

  // What the operations promise together -----------------------------------------------------------

  datatype Op<T> = Put(x: T) | Get

  /** The queue, the values accepted and the values handed out, after a sequence of operations. */
  datatype Trace<T> = Trace(elements: seq<T>, accepted: seq<T>, given: seq<T>)

  ghost function Perform<T>(ops: seq<Op<T>>, capacity: nat): Trace<T> {
    if |ops| == 0 then Trace([], [], [])
    else
      var before := Perform(ops[..|ops| - 1], capacity);
      match ops[|ops| - 1]
      case Put(x) =>
        Trace(EmplacedOn(before.elements, capacity, x),
              if |before.elements| < capacity then before.accepted + [x] else before.accepted,
              before.given)
      case Get =>
        Trace(PoppedFrom(before.elements), before.accepted,
              if before.elements == [] then before.given else before.given + [before.elements[0]])
  }

  lemma PerformNext<T>(ops: seq<Op<T>>, op: Op<T>, capacity: nat)
    ensures var before, after := Perform(ops, capacity), Perform(ops + [op], capacity);
            && (op.Put? ==> after.elements == EmplacedOn(before.elements, capacity, op.x) && after.given == before.given)
            && (op.Get? ==>
                  && after.elements == PoppedFrom(before.elements)
                  && after.given ==
                     if before.elements == [] then before.given else before.given + [before.elements[0]])
  {
    assert (ops + [op])[..|ops|] == ops;
  }

  /** First in, first out, nothing lost or invented, never over capacity. */
  lemma {:induction false} BoundedFifo<T>(ops: seq<Op<T>>, capacity: nat)
    ensures var r := Perform(ops, capacity);
            r.accepted == r.given + r.elements && |r.elements| <= capacity
  {
    if |ops| == 0 {
    } else {
      BoundedFifo(ops[..|ops| - 1], capacity);
    }
  }
}

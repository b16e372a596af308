/** The receiver slots of one label: include/msglib/detail/Receiver.h. */
module Receiver {
  import opened Messages

  /** The first empty slot, or |slots| when there is none. */
  function FirstFree<M>(slots: seq<Option<M>>): (k: nat)
    ensures k <= |slots|
    ensures k < |slots| ==> slots[k].None?
    ensures forall j :: 0 <= j < k ==> slots[j].Some?
  {
    if |slots| == 0 then 0
    else if slots[0].None? then 0
    else 1 + FirstFree(slots[1..])
  }

  function AddSlot<M>(slots: seq<Option<M>>, m: M): seq<Option<M>> {
    var k := FirstFree(slots);
    if k < |slots| then slots[k := Some(m)] else slots
  }

  function RemoveSlot<M(==)>(slots: seq<Option<M>>, m: M): (r: seq<Option<M>>)
    ensures |r| == |slots|
    ensures forall j :: 0 <= j < |slots| ==> r[j] == if slots[j] == Some(m) then None else slots[j]
  {
    seq(|slots|, j requires 0 <= j < |slots| => if slots[j] == Some(m) then None else slots[j])
  }

  /** The registrations recorded in the slots, with multiplicity. */
  ghost function Registered<M>(slots: seq<Option<M>>): multiset<M> {
    if |slots| == 0 then multiset{}
    else if slots[0].None? then Registered(slots[1..])
    else Registered(slots[1..]) + multiset{slots[0].value}
  }

  ghost function Empties<M>(n: nat): seq<Option<M>> {
    seq(n, _ => None)
  }

  /** The slots of one label. MAX_RECEIVERS is the length of the array. */
  class Receivers<M(==)> {
    const receivers: array<Option<M>>

    constructor (maxReceivers: nat)
      ensures fresh(receivers) && receivers[..] == Empties(maxReceivers)
    {
      receivers := new Option<M>[maxReceivers](_ => None);
    }

    method Add(mbox: M) returns (added: bool)
      modifies receivers
      ensures receivers[..] == AddSlot(old(receivers[..]), mbox)
      ensures added <==> None in old(receivers[..])
      ensures added ==>
                exists k :: 0 <= k < receivers.Length && old(receivers[k]).None?
                            && (forall j :: 0 <= j < k ==> old(receivers[j]).Some?)
                            && receivers[..] == old(receivers[..])[k := Some(mbox)]
      ensures !added ==> receivers[..] == old(receivers[..])
    {
      var i := 0;
      while i < receivers.Length
        invariant i <= receivers.Length
        invariant receivers[..] == old(receivers[..])
        invariant forall j :: 0 <= j < i ==> receivers[j].Some?
      {
        if receivers[i].None? {
          assert FirstFree(receivers[..]) == i;
          receivers[i] := Some(mbox);
          assert old(receivers[..])[i] == None;
          return true;
        }
        i := i + 1;
      }
      return false;
    }

    method Remove(mbox: M) returns (last: bool)
      modifies receivers
      ensures receivers[..] == RemoveSlot(old(receivers[..]), mbox)
      ensures last <==> Registered(receivers[..]) == multiset{}
    {
      last := true;
      var i := 0;
      while i < receivers.Length
        invariant i <= receivers.Length
        invariant forall j :: 0 <= j < i ==>
                    receivers[j] == if old(receivers[j]) == Some(mbox) then None else old(receivers[j])
        invariant forall j :: i <= j < receivers.Length ==> receivers[j] == old(receivers[j])
        invariant last <==> forall j :: 0 <= j < i ==> receivers[j].None?
      {
        if receivers[i] == Some(mbox) {
          receivers[i] := None;
        }
        last := last && receivers[i].None?;
        i := i + 1;
      }
      RegisteredEmpty(receivers[..]);
    }
  }

  lemma {:induction false} RegisteredEmpty<M>(slots: seq<Option<M>>)
    ensures Registered(slots) == multiset{} <==> forall j :: 0 <= j < |slots| ==> slots[j].None?
  {
    if |slots| == 0 {
    } else {
      RegisteredEmpty(slots[1..]);
      assert slots == [slots[0]] + slots[1..];
    }
  }

  lemma {:induction false} RegisteredSize<M>(slots: seq<Option<M>>)
    ensures |Registered(slots)| <= |slots|
    ensures |Registered(slots)| == |slots| <==> FirstFree(slots) == |slots|
  {
    if |slots| == 0 {
    } else {
      RegisteredSize(slots[1..]);
    }
  }

  /** add takes the first empty slot: the order of the slots is the order in which a broadcast serves its receivers. */
  lemma AddTakesFirst<M>(slots: seq<Option<M>>, m: M, k: nat)
    requires k <= |slots| && (forall j :: 0 <= j < k ==> slots[j].Some?) && (k < |slots| ==> slots[k].None?)
    ensures AddSlot(slots, m) == if k < |slots| then slots[k := Some(m)] else slots
  {
  }

  /** add: one more registration unless all slots are taken; the others stay in their slots. */
  lemma {:induction false} AddRegisters<M>(slots: seq<Option<M>>, m: M)
    ensures |AddSlot(slots, m)| == |slots|
    ensures Registered(AddSlot(slots, m)) ==
            if |Registered(slots)| < |slots| then Registered(slots) + multiset{m} else Registered(slots)
    ensures forall j :: 0 <= j < |slots| && slots[j].Some? ==> AddSlot(slots, m)[j] == slots[j]
  {
    RegisteredSize(slots);
    if |slots| > 0 && slots[0].Some? {
      AddRegisters(slots[1..], m);
      RegisteredSize(slots[1..]);
      assert AddSlot(slots, m)[1..] == AddSlot(slots[1..], m);
    } else if |slots| > 0 {
      assert AddSlot(slots, m)[1..] == slots[1..];
    }
  }

  /** remove: every registration of m goes, every other one stays in its slot. */
  lemma {:induction false} RemoveUnregisters<M>(slots: seq<Option<M>>, m: M)
    ensures Registered(RemoveSlot(slots, m)) == Registered(slots)[m := 0]
    ensures forall j :: 0 <= j < |slots| && slots[j] != Some(m) ==> RemoveSlot(slots, m)[j] == slots[j]
  {
    if |slots| == 0 {
    } else {
      RemoveUnregisters(slots[1..], m);
      assert RemoveSlot(slots, m)[1..] == RemoveSlot(slots[1..], m);
    }
  }

  /** One registration call, and its effect on a multiset that holds at most n registrations. */
  datatype Call<M> = Register(lab: Label, m: M) | Unregister(lab: Label, m: M)

  ghost function SlotsAfter<M>(n: nat, calls: seq<Call<M>>, l: Label): seq<Option<M>> {
    if |calls| == 0 then Empties(n)
    else
      var before := SlotsAfter(n, calls[..|calls| - 1], l);
      var c := calls[|calls| - 1];
      if c.lab != l then before
      else if c.Register? then AddSlot(before, c.m) else RemoveSlot(before, c.m)
  }

  ghost function BagAfter<M>(n: nat, calls: seq<Call<M>>, l: Label): multiset<M> {
    if |calls| == 0 then multiset{}
    else
      var before := BagAfter(n, calls[..|calls| - 1], l);
      var c := calls[|calls| - 1];
      if c.lab != l then before
      else if c.Unregister? then before[c.m := 0]
      else if |before| < n then before + multiset{c.m} else before
  }

  /** Over any sequence of calls on any labels the slots implement the bounded multiset. */
  lemma {:induction false} SlotsRefineBag<M>(n: nat, calls: seq<Call<M>>, l: Label)
    ensures |SlotsAfter(n, calls, l)| == n
    ensures Registered(SlotsAfter(n, calls, l)) == BagAfter(n, calls, l)
    ensures |BagAfter(n, calls, l)| <= n
  {
    if |calls| == 0 {
      RegisteredEmpty(SlotsAfter(n, calls, l));
    } else {
      SlotsRefineBag(n, calls[..|calls| - 1], l);
      var before := SlotsAfter(n, calls[..|calls| - 1], l);
      AddRegisters(before, calls[|calls| - 1].m);
      RemoveUnregisters(before, calls[|calls| - 1].m);
      RegisteredSize(SlotsAfter(n, calls, l));
    }
  }
}

/** Every block in use has exactly one owner. */
module Ownership {
  import opened Messages
  import opened Threads
  import opened System
  import opened Locks
  import opened Broadcast

  /** The block a thread is filling, handing over or freeing. */
  function Carried(pc: PC): Option<Block> {
    match pc
    case Sending(_, _, _, st) =>
      if st.Got? || st.Fill? || st.Bad? then Some(st.b)
      else if st.WantQ? || st.InQ? || st.Tested? then st.d
      else None
    case Freeing(_, b) => Some(b)
    case _ => None
  }

  ghost predicate ThreadPlaces(pcs: map<Tid, PC>, place: map<Block, Place>) {
    && (forall t {:trigger pcs[t]} :: t in pcs && Carried(pcs[t]).Some? ==>
          var b := Carried(pcs[t]).value; b in place && place[b] == InThread(t))
    && (forall b {:trigger place[b]} :: b in place && place[b].InThread? ==>
          place[b].t in pcs && Carried(pcs[place[b].t]) == Some(b))
  }

  /** The message at position k of m's queue is number |popped[m]| + k of all messages queued there. */
  ghost predicate QueuePlaces(queues: map<Mid, seq<Entry>>, popped: map<Mid, seq<Entry>>, place: map<Block, Place>) {
    && queues.Keys == popped.Keys
    && (forall m, k {:trigger queues[m][k]} ::
          m in queues && 0 <= k < |queues[m]| && queues[m][k].msg.data.Some? ==>
            var b := queues[m][k].msg.data.value; b in place && place[b] == Queued(m, |popped[m]| + k))
    && (forall b {:trigger place[b]} :: b in place && place[b].Queued? ==>
          var Queued(m, n) := place[b];
          && m in queues && |popped[m]| <= n < |popped[m]| + |queues[m]|
          && queues[m][n - |popped[m]|].msg.data == Some(b))
  }

  ghost predicate HeldPlaces(held: map<Block, Held>, place: map<Block, Place>) {
    && (forall b {:trigger held[b]} :: b in held ==> b in place && place[b] == Client && held[b].e.msg.data == Some(b))
    && (forall b {:trigger place[b]} :: b in place && place[b].Client? ==> b in held)
  }

  ghost predicate DropPlaces(dropped: set<Block>, place: map<Block, Place>) {
    && (forall b {:trigger b in dropped} :: b in dropped ==> b in place && place[b] == Dropped)
    && (forall b {:trigger place[b]} :: b in place && place[b].Dropped? ==> b in dropped)
  }

  ghost predicate OwnInv(s: State) {
    && s.place.Keys == s.heap.Keys
    && ThreadPlaces(s.pcs, s.place)
    && QueuePlaces(s.queues, s.popped, s.place)
    && HeldPlaces(s.held, s.place)
    && DropPlaces(s.dropped, s.place)
  }

  lemma InitOwn(c: Config, s: State)
    requires Init(c, s)
    ensures OwnInv(s)
  {
  }

  // One change of one block's place --------------------------------------------------------------

  ghost predicate SameBut(place: map<Block, Place>, place': map<Block, Place>, b: Block) {
    && (forall x: Block {:trigger place'[x]} :: x in place' && x != b ==> x in place && place[x] == place'[x])
    && (forall x: Block {:trigger place[x]} :: x in place && x != b ==> x in place' && place'[x] == place[x])
  }

  lemma Updated(place: map<Block, Place>, b: Block, p: Place)
    ensures SameBut(place, place[b := p], b) && SameBut(place, place - {b}, b)
  {
  }

  lemma CarriedPlace(pcs: map<Tid, PC>, place: map<Block, Place>, t: Tid)
    requires ThreadPlaces(pcs, place) && t in pcs && Carried(pcs[t]).Some?
    ensures Carried(pcs[t]).value in place && place[Carried(pcs[t]).value] == InThread(t)
  {
  }

  lemma ThreadFrame(pcs: map<Tid, PC>, place: map<Block, Place>, place': map<Block, Place>, b: Block)
    requires ThreadPlaces(pcs, place) && SameBut(place, place', b)
    requires (b in place ==> !place[b].InThread?) && (b in place' ==> !place'[b].InThread?)
    ensures ThreadPlaces(pcs, place')
  {
  }

  /** Thread t's step gives it, moves, or takes away its only block. */
  lemma ThreadMove(pcs: map<Tid, PC>, place: map<Block, Place>, t: Tid, next: PC, place': map<Block, Place>, b: Block)
    requires ThreadPlaces(pcs, place) && t in pcs && SameBut(place, place', b)
    requires Carried(pcs[t]).Some? ==> Carried(pcs[t]).value == b
    requires b in place && place[b].InThread? ==> place[b].t == t
    requires if Carried(next).Some? then Carried(next).value == b && b in place' && place'[b] == InThread(t)
             else b in place' ==> !place'[b].InThread?
    ensures ThreadPlaces(pcs[t := next], place')
  {
  }

  lemma ThreadStay(pcs: map<Tid, PC>, place: map<Block, Place>, t: Tid, next: PC)
    requires ThreadPlaces(pcs, place) && t in pcs && Carried(next) == Carried(pcs[t])
    ensures ThreadPlaces(pcs[t := next], place)
  {
  }

  lemma QueueFrame(queues: map<Mid, seq<Entry>>, popped: map<Mid, seq<Entry>>,
                   place: map<Block, Place>, place': map<Block, Place>, b: Block)
    requires QueuePlaces(queues, popped, place) && SameBut(place, place', b)
    requires (b in place ==> !place[b].Queued?) && (b in place' ==> !place'[b].Queued?)
    ensures QueuePlaces(queues, popped, place')
  {
  }

  lemma QueueAppend(queues: map<Mid, seq<Entry>>, popped: map<Mid, seq<Entry>>, place: map<Block, Place>,
                    m: Mid, e: Entry)
    requires QueuePlaces(queues, popped, place) && m in queues
    requires e.msg.data.Some? && e.msg.data.value in place ==> !place[e.msg.data.value].Queued?
    ensures QueuePlaces(queues[m := queues[m] + [e]], popped,
                        Placed(place, e.msg.data, Queued(m, |popped[m]| + |queues[m]|)))
  {
    var place': map<Block, Place> := Placed(place, e.msg.data, Queued(m, |popped[m]| + |queues[m]|));
    var queues': map<Mid, seq<Entry>> := queues[m := queues[m] + [e]];
    forall b: Block {:trigger place'[b]} | b in place' && place'[b].Queued?
      ensures var Queued(x, n) := place'[b];
              && x in queues' && |popped[x]| <= n < |popped[x]| + |queues'[x]|
              && queues'[x][n - |popped[x]|].msg.data == Some(b)
    {
      assert e.msg.data != Some(b) ==> place'[b] == place[b];
    }
  }

  lemma QueuePop(queues: map<Mid, seq<Entry>>, popped: map<Mid, seq<Entry>>, place: map<Block, Place>, m: Mid)
    requires QueuePlaces(queues, popped, place) && m in queues && queues[m] != []
    ensures QueuePlaces(queues[m := queues[m][1..]], popped[m := popped[m] + [queues[m][0]]],
                        Placed(place, queues[m][0].msg.data, Client))
  {
    var d := queues[m][0].msg.data;
    var place': map<Block, Place> := Placed(place, d, Client);
    assert d.Some? ==> d.value in place && place[d.value] == Queued(m, |popped[m]| + 0);
    var queues': map<Mid, seq<Entry>> := queues[m := queues[m][1..]];
    var popped': map<Mid, seq<Entry>> := popped[m := popped[m] + [queues[m][0]]];
    forall x: Mid, k: nat {:trigger queues'[x][k]} | x in queues' && k < |queues'[x]| && queues'[x][k].msg.data.Some?
      ensures var b := queues'[x][k].msg.data.value; b in place' && place'[b] == Queued(x, |popped'[x]| + k)
    {
      var j := if x == m then k + 1 else k;
      assert queues'[x][k] == queues[x][j];
    }
  }

  lemma HeldFrame(held: map<Block, Held>, place: map<Block, Place>, place': map<Block, Place>, b: Block)
    requires HeldPlaces(held, place) && SameBut(place, place', b)
    requires (b in place ==> !place[b].Client?) && (b in place' ==> !place'[b].Client?)
    ensures HeldPlaces(held, place')
  {
  }

  lemma DropFrame(dropped: set<Block>, place: map<Block, Place>, place': map<Block, Place>, b: Block)
    requires DropPlaces(dropped, place) && SameBut(place, place', b)
    requires (b in place ==> !place[b].Dropped?) && (b in place' ==> !place'[b].Dropped?)
    ensures DropPlaces(dropped, place')
  {
  }

  /** A block moves into, within or out of a thread; queues, clients and dropped blocks do not notice. */
  lemma FrameRest(s: State, place': map<Block, Place>, b: Block)
    requires QueuePlaces(s.queues, s.popped, s.place) && HeldPlaces(s.held, s.place) && DropPlaces(s.dropped, s.place)
    requires SameBut(s.place, place', b)
    requires (b in s.place ==> s.place[b].InThread?) && (b in place' ==> place'[b].InThread?)
    ensures QueuePlaces(s.queues, s.popped, place') && HeldPlaces(s.held, place') && DropPlaces(s.dropped, place')
  {
    hide QueuePlaces, HeldPlaces, DropPlaces, SameBut;
    QueueFrame(s.queues, s.popped, s.place, place', b);
    HeldFrame(s.held, s.place, place', b);
    DropFrame(s.dropped, s.place, place', b);
  }

  lemma DropAdd(dropped: set<Block>, place: map<Block, Place>, b: Block)
    requires DropPlaces(dropped, place)
    ensures DropPlaces(dropped + {b}, place[b := Dropped])
  {
  }

  lemma HeldAdd(held: map<Block, Held>, place: map<Block, Place>, b: Block, h: Held)
    requires HeldPlaces(held, place) && h.e.msg.data == Some(b)
    ensures HeldPlaces(held[b := h], place[b := Client])
  {
  }

  lemma HeldRemove(held: map<Block, Held>, place: map<Block, Place>, b: Block, p: Place)
    requires HeldPlaces(held, place) && !p.Client?
    ensures HeldPlaces(held - {b}, place[b := p])
  {
  }

  // Steps -----------------------------------------------------------------------------------------

  lemma PmrOkKeepsOwn(c: Config, s: State, t: Tid, b: Block, junk: seq<Byte>)
    requires t in s.pcs && CanSend(c, s, s.pcs[t], PmrOk(b, junk)) && OwnInv(s)
    ensures OwnInv(DoSend(c, s, t, s.pcs[t], PmrOk(b, junk)))
  {
    hide ThreadPlaces, QueuePlaces, HeldPlaces, DropPlaces, SameBut;
    Updated(s.place, b, InThread(t));
    ThreadMove(s.pcs, s.place, t, SendPc(c, s, s.pcs[t], PmrOk(b, junk)), s.place[b := InThread(t)], b);
    FrameRest(s, s.place[b := InThread(t)], b);
  }

  lemma PushKeepsOwn(c: Config, s: State, t: Tid)
    requires t in s.pcs && CanSend(c, s, s.pcs[t], Push) && PcOk(c, s.pcs[t]) && OwnInv(s)
    ensures OwnInv(DoSend(c, s, t, s.pcs[t], Push))
  {
    hide ThreadPlaces, QueuePlaces, HeldPlaces, DropPlaces, SameBut;
    var pc := s.pcs[t];
    var next := Sending(pc.op, pc.i, pc.ok, Pushed(pc.st.m));
    var p := Queued(pc.st.m, |s.popped[pc.st.m]| + |s.queues[pc.st.m]|);
    if pc.st.d.Some? {
      var b := pc.st.d.value;
      CarriedPlace(s.pcs, s.place, t);
      Updated(s.place, b, p);
      ThreadMove(s.pcs, s.place, t, next, s.place[b := p], b);
      HeldFrame(s.held, s.place, s.place[b := p], b);
      DropFrame(s.dropped, s.place, s.place[b := p], b);
    } else {
      ThreadStay(s.pcs, s.place, t, next);
    }
    QueueAppend(s.queues, s.popped, s.place, pc.st.m, EntryOf(pc.op, pc.st.d, |s.log| - 1, pc.i));
  }

  lemma RefuseKeepsOwn(c: Config, s: State, t: Tid)
    requires t in s.pcs && CanSend(c, s, s.pcs[t], Refuse) && OwnInv(s)
    ensures OwnInv(DoSend(c, s, t, s.pcs[t], Refuse))
  {
    hide ThreadPlaces, QueuePlaces, HeldPlaces, DropPlaces, SameBut;
    var pc := s.pcs[t];
    var next := SendPc(c, s, pc, Refuse);
    if pc.st.d.Some? {
      var b := pc.st.d.value;
      CarriedPlace(s.pcs, s.place, t);
      Updated(s.place, b, Dropped);
      ThreadMove(s.pcs, s.place, t, next, s.place[b := Dropped], b);
      QueueFrame(s.queues, s.popped, s.place, s.place[b := Dropped], b);
      HeldFrame(s.held, s.place, s.place[b := Dropped], b);
      DropAdd(s.dropped, s.place, b);
    } else {
      ThreadStay(s.pcs, s.place, t, next);
    }
  }

  /** Steps after which the thread carries what it carried before. */
  lemma CarryKeepsOwn(c: Config, s: State, t: Tid, a: SendAct)
    requires t in s.pcs && CanSend(c, s, s.pcs[t], a) && PcOk(c, s.pcs[t]) && OwnInv(s)
    requires !a.PmrOk? && !a.Push? && !a.Refuse?
    ensures OwnInv(DoSend(c, s, t, s.pcs[t], a))
  {
    hide ThreadPlaces, QueuePlaces, HeldPlaces, DropPlaces;
    assert Carried(SendPc(c, s, s.pcs[t], a)) == Carried(s.pcs[t]);
    ThreadStay(s.pcs, s.place, t, SendPc(c, s, s.pcs[t], a));
  }

  lemma SendKeepsOwn(c: Config, s: State, t: Tid, a: SendAct)
    requires t in s.pcs && CanSend(c, s, s.pcs[t], a) && PcOk(c, s.pcs[t]) && OwnInv(s)
    ensures OwnInv(DoSend(c, s, t, s.pcs[t], a))
  {
    hide OwnInv, CanSend, DoSend, PcOk;
    if a.PmrOk? {
      PmrOkKeepsOwn(c, s, t, a.b, a.junk);
    } else if a.Push? {
      PushKeepsOwn(c, s, t);
    } else if a.Refuse? {
      RefuseKeepsOwn(c, s, t);
    } else {
      CarryKeepsOwn(c, s, t, a);
    }
  }

  lemma PopKeepsOwn(c: Config, s: State, t: Tid)
    requires t in s.pcs && CanRecv(c, s, t, s.pcs[t], Pop) && s.queues[s.pcs[t].m] != [] && OwnInv(s)
    ensures OwnInv(DoRecv(c, s, t, s.pcs[t], Pop))
  {
    var m := s.pcs[t].m;
    var e := s.queues[m][0];
    assert e.msg.data.Some? ==> e.msg.data.value in s.place && s.place[e.msg.data.value] == Queued(m, |s.popped[m]| + 0);
    hide ThreadPlaces, QueuePlaces, HeldPlaces, DropPlaces, SameBut;
    var pcs' := s.pcs[t := RecvPc(c, s, t, s.pcs[t], Pop)];
    ThreadStay(s.pcs, s.place, t, RecvPc(c, s, t, s.pcs[t], Pop));
    QueuePop(s.queues, s.popped, s.place, m);
    if e.msg.data.Some? {
      var b := e.msg.data.value;
      Updated(s.place, b, Client);
      ThreadFrame(pcs', s.place, s.place[b := Client], b);
      HeldAdd(s.held, s.place, b, Held(e, false));
      DropFrame(s.dropped, s.place, s.place[b := Client], b);
    }
  }

  lemma RecvKeepsOwn(c: Config, s: State, t: Tid, a: RecvAct)
    requires t in s.pcs && CanRecv(c, s, t, s.pcs[t], a) && OwnInv(s)
    ensures OwnInv(DoRecv(c, s, t, s.pcs[t], a))
  {
    hide ThreadPlaces, QueuePlaces, HeldPlaces, DropPlaces, SameBut;
    if a.Pop? && s.queues[s.pcs[t].m] != [] {
      PopKeepsOwn(c, s, t);
    } else {
      ThreadStay(s.pcs, s.place, t, RecvPc(c, s, t, s.pcs[t], a));
    }
  }

  lemma ReleaseKeepsOwn(c: Config, s: State, t: Tid, b: Block)
    requires t in s.pcs && CanFree(s, s.pcs[t], Release(b)) && OwnInv(s)
    ensures OwnInv(DoFree(c, s, t, s.pcs[t], Release(b)))
  {
    assert b in s.place && s.place[b] == Client;
    hide ThreadPlaces, QueuePlaces, HeldPlaces, DropPlaces, SameBut;
    var place' := s.place[b := InThread(t)];
    Updated(s.place, b, InThread(t));
    ThreadMove(s.pcs, s.place, t, FreePc(c, s, s.pcs[t], Release(b)), place', b);
    QueueFrame(s.queues, s.popped, s.place, place', b);
    DropFrame(s.dropped, s.place, place', b);
    HeldRemove(s.held, s.place, b, InThread(t));
  }

  lemma DeallocKeepsOwn(c: Config, s: State, t: Tid)
    requires t in s.pcs && CanFree(s, s.pcs[t], Dealloc) && OwnInv(s)
    ensures OwnInv(DoFree(c, s, t, s.pcs[t], Dealloc))
  {
    hide ThreadPlaces, QueuePlaces, HeldPlaces, DropPlaces, SameBut;
    var pc := s.pcs[t];
    CarriedPlace(s.pcs, s.place, t);
    Updated(s.place, pc.b, Dropped);
    ThreadMove(s.pcs, s.place, t, Freed(pc.pool), s.place - {pc.b}, pc.b);
    FrameRest(s, s.place - {pc.b}, pc.b);
  }

  lemma WriteKeepsOwn(c: Config, s: State, t: Tid, b: Block, bytes: seq<Byte>)
    requires t in s.pcs && CanFree(s, s.pcs[t], Write(b, bytes)) && OwnInv(s)
    ensures OwnInv(DoFree(c, s, t, s.pcs[t], Write(b, bytes)))
  {
    assert b in s.place && s.place[b] == Client && s.held[b].e.msg.data == Some(b);
    hide ThreadPlaces, QueuePlaces, HeldPlaces, DropPlaces, SameBut;
    ThreadStay(s.pcs, s.place, t, s.pcs[t]);
    HeldAdd(s.held, s.place, b, Held(s.held[b].e, true));
    assert s.place[b := Client] == s.place;
  }

  lemma FreeKeepsOwn(c: Config, s: State, t: Tid, a: FreeAct)
    requires t in s.pcs && CanFree(s, s.pcs[t], a) && OwnInv(s)
    ensures OwnInv(DoFree(c, s, t, s.pcs[t], a))
  {
    if a.Release? {
      hide OwnInv;
      ReleaseKeepsOwn(c, s, t, a.b);
    } else if a.Dealloc? {
      hide OwnInv;
      DeallocKeepsOwn(c, s, t);
    } else if a.Write? {
      hide OwnInv;
      WriteKeepsOwn(c, s, t, a.b, a.bytes);
    } else {
      hide ThreadPlaces, QueuePlaces, HeldPlaces, DropPlaces, SameBut;
      ThreadStay(s.pcs, s.place, t, Idle);
    }
  }

  lemma OthersKeepOwn(c: Config, s: State, t: Tid, a: Act)
    requires Can(c, s, t, a) && (a.Rgs? || a.Tmr?) && OwnInv(s)
    ensures OwnInv(Do(c, s, t, a))
  {
    hide ThreadPlaces, QueuePlaces, HeldPlaces, DropPlaces, SameBut;
    match a
    case Rgs(x) => ThreadStay(s.pcs, s.place, t, RegPc(c, s, s.pcs[t], x));
    case Tmr(x) => ThreadStay(s.pcs, s.place, t, TimerPc(c, s, t, s.pcs[t], x));
  }
}

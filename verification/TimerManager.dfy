/**
 * The classes of include/msglib/detail/TimerManagerData.h, proved against the table functions of the step system.
 * Each method is one critical section of the recursive mutex.
 */
module TimerManager {
  import opened Messages
  import System
  import TimerTable

  class Timer {
    const lab: Label
    const oneShot: bool
    ghost const id: nat

    constructor (lab: Label, oneShot: bool, ghost id: nat)
      ensures this.lab == lab && this.oneShot == oneShot && this.id == id
    {
      this.lab, this.oneShot, this.id := lab, oneShot, id;
    }

    /** timerEvent, called by HandleSignals: one SendSignal, and a one-shot cancels itself. */
    method TimerEvent(manager: TimerManagerData)
      requires manager.Valid() && this == manager.timers[lab]
      modifies manager, manager.timers
      ensures manager.Valid()
      ensures var fired := old(manager.tm).(signals := old(manager.tm).signals + [id]);
              manager.tm == if oneShot then System.CancelIn(fired, lab) else fired
      ensures oneShot <==> manager.timers[lab] == null
      ensures forall l: Label :: l != lab ==> manager.timers[l] == old(manager.timers[l])
    {
      manager.SendSignal(this);
      if oneShot {
        var _ := manager.CancelTimer(lab);
      }
    }
  }

  /** tm is the same table seen by the step system, with the operating system's timers and the signals sent. */
  class TimerManagerData {
    const timers: array<Timer?>
    ghost var tm: System.Timers

    ghost predicate Valid()
      reads this, timers
    {
      && timers.Length == 65536
      && TimerTable.TableOk(tm)
      && (forall l: Label {:trigger timers[l]} :: timers[l] != null <==> l in tm.table)
      && (forall l: Label {:trigger timers[l]} :: timers[l] != null ==>
            && timers[l].lab == l && timers[l].id == tm.table[l]
            && tm.started[tm.table[l]] == System.TimerInfo(l, timers[l].oneShot))
    }

    /** With a table that starts all null. */
    constructor ()
      ensures Valid() && fresh(timers) && tm == System.Timers([], map[], {}, {}, {}, [], false)
    {
      timers := new Timer?[65536](_ => null);
      tm := System.Timers([], map[], {}, {}, {}, [], false);
    }

    method StartTimer(lab: Label, oneShot: bool) returns (ok: bool)
      requires Valid()
      modifies this, timers
      ensures Valid()
      ensures ok <==> old(timers[lab]) == null
      ensures tm == System.StartIn(old(tm), lab, oneShot)
      ensures ok ==> lab in tm.table && tm.table[lab] in tm.armed && tm.table[lab] !in old(tm.objs)
      ensures timers[lab] != null && (ok ==> timers[lab].oneShot == oneShot)
      ensures forall l: Label :: l != lab || !ok ==> timers[l] == old(timers[l])
    {
      if timers[lab] == null {
        TimerTable.StartKeepsTable(tm, lab, oneShot);
        timers[lab] := new Timer(lab, oneShot, |tm.started|);
        tm := System.StartIn(tm, lab, oneShot);
        return true;
      }
      return false;
    }

    method CancelTimer(lab: Label) returns (ok: bool)
      requires Valid()
      modifies this, timers
      ensures Valid()
      ensures ok <==> old(timers[lab]) != null
      ensures tm == System.CancelIn(old(tm), lab)
      ensures timers[lab] == null
      ensures forall l: Label :: l != lab ==> timers[l] == old(timers[l])
    {
      if timers[lab] != null {
        TimerTable.CancelRemoves(tm, lab);
        tm := System.CancelIn(tm, lab);
        timers[lab] := null;
        return true;
      }
      return false;
    }

    /** Mailbox::SendSignal is modelled elsewhere; here only the call is recorded. */
    method SendSignal(t: Timer)
      requires Valid() && t == timers[t.lab]
      modifies this
      ensures Valid() && tm == old(tm).(signals := old(tm).signals + [t.id])
    {
      tm := tm.(signals := tm.signals + [t.id]);
    }
  }
}

/** The second process manager's methods (internal/infrastructure/processmgr/process_manager2.go), over
    the allocator, slot pools and scheduler it owns.  Each method is one critical section, or one
    goroutine's straight-line code, and is proved to do to `View` what the functions of Manager2Core say;
    Manager2Machine interleaves those. */
module ProcessManagers2 {
  import opened Wrappers
  import opened SlotPools
  import opened PidAllocation
  import opened Scheduling
  import opened ExecSpecs
  import opened Manager2Core

  /** What one turn of the loop came to. */
  datatype Turn = Empty | Later(pid: int, when: int) | Tried(pid: int, outcome: TryOutcome)

  class ProcessManager2 {
    var units: map<int, int>
    var specs: map<int, Spec>
    var ps: set<int>
    var closing: set<int>
    const gen: PidAllocator
    const preflight: SlotPool
    const onflight: SlotPool
    const sched: Scheduler
    var sig: bool

    ghost function Repr(): (r: set<object>)
      reads this, sched
    {
      {this, gen, preflight, onflight, sched} + set e | e in sched.h
    }

    ghost predicate Valid()
      reads this, gen, preflight, onflight, sched, sched.h
    {
      && gen.Valid() && gen.pidMax == PID_MAX
      && preflight.Valid() && onflight.Valid() && preflight != onflight
      && sched.Valid()
    }

    ghost function View(): (r: Core)
      requires Valid()
      reads this, gen, preflight, onflight, sched, sched.h
    {
      Core(units, specs, ps, closing, gen.next, gen.inUse, preflight.View(), onflight.View(), sched.View(), sig)
    }

    constructor (maxPreflight: int, maxOnflight: int)
      ensures Valid() && fresh(Repr())
      ensures View() ==
              Core(map[], map[], {}, {}, 1, {}, Pool(maxPreflight, 0, {}), Pool(maxOnflight, 0, {}), map[], false)
    {
      units, specs, ps, closing, sig := map[], map[], {}, {}, false;
      gen := new PidAllocator();
      preflight := new SlotPool(maxPreflight);
      onflight := new SlotPool(maxOnflight);
      sched := new Scheduler();
    }

    method ScheduleUnsafe(pid: int, at: int)
      requires Valid()
      modifies this`sig, sched, sched.h
      ensures Valid() && View() == old(View()).Schedule(pid, at)
      ensures forall e :: e in sched.h ==> e in old(sched.h) || fresh(e)
    {
      sched.Push(pid, at);
      sig := true;
    }

    /** `false` is the allocator's panic. */
    method Add(uid: int, argv: seq<string>, cooldown: int, now: int) returns (ok: bool)
      requires Valid()
      modifies this, gen, sched, sched.h
      ensures Valid() && View() == old(View()).Add(uid, argv, cooldown, now)
      ensures ok <==> uid in old(units) || old(View()).NewPid().Some?
    {
      if uid in units {
        return true;
      }
      var r := gen.Alloc();
      if r.None? {
        return false;
      }
      var pid := r.value;
      units := units[uid := pid];
      specs := specs[pid := Spec(uid, argv, cooldown)];
      ScheduleUnsafe(pid, now);
      return true;
    }

    method Remove(uid: int)
      requires Valid()
      modifies this, sched, sched.h
      ensures Valid() && View() == old(View()).Remove(uid)
    {
      if uid !in units {
        return;
      }
      var pid := units[uid];
      if pid in ps {
        closing := closing + {pid};
      }
      units := units - {uid};
      specs := specs - {pid};
      ps := ps - {pid};
      sched.Remove(pid);
    }

    method CloseFirst(owners: seq<int>, excess: nat)
      requires Valid() && excess <= |owners|
      modifies this`closing
      ensures Valid() && View() == old(View()).CloseAll(owners[..excess])
    {
      var i := 0;
      while i < excess
        invariant 0 <= i <= excess
        invariant old(View()).CloseAll(owners[..excess]) == View().CloseAll(owners[i..excess])
      {
        assert owners[i..excess][0] == owners[i] && owners[i..excess][1..] == owners[i + 1..excess];
        if owners[i] in ps {
          closing := closing + {owners[i]};
        }
        i := i + 1;
      }
      assert owners[i..excess] == [];
    }

    method TrimPreflight(maxPre: int) returns (ok: bool, ghost order: seq<int>)
      requires Valid()
      modifies this`closing, preflight
      ensures Valid() && Lists(order, old(preflight.acquiredBy))
      ensures View() == old(View()).TrimPre(maxPre, order)
      ensures ok <==> !old(View()).SlicesPre(maxPre)
    {
      ok := true;
      var oldPre := preflight.Capacity();
      if oldPre != maxPre {
        preflight.UpdateLimit(maxPre);
        var owners := preflight.ListAcquired();
        order := owners;
        if |owners| > maxPre {
          var excess := |owners| - maxPre;
          if excess > |owners| {
            return false, order;
          }
          CloseFirst(owners, excess);
        }
      } else {
        order := preflight.ListAcquired();
      }
    }

    method TrimOnflight(maxOn: int) returns (ok: bool, ghost order: seq<int>)
      requires Valid()
      modifies this`closing, onflight
      ensures Valid() && Lists(order, old(onflight.acquiredBy))
      ensures View() == old(View()).TrimOn(maxOn, order)
      ensures ok <==> !old(View()).SlicesOn(maxOn)
    {
      ok := true;
      var oldOn := onflight.Capacity();
      if oldOn != maxOn {
        onflight.UpdateLimit(maxOn);
        var owners := onflight.ListAcquired();
        order := owners;
        if |owners| > maxOn {
          var excess := |owners| - maxOn;
          if excess > |owners| {
            return false, order;
          }
          CloseFirst(owners, excess);
        }
      } else {
        order := onflight.ListAcquired();
      }
    }

    /** `false` is the out-of-range slice of a negative limit.  The owners are listed in an order the
        source leaves open; the ghost results say which. */
    method UpdateLimits(maxPre: int, maxOn: int) returns (ok: bool, ghost preOrder: seq<int>, ghost onOrder: seq<int>)
      requires Valid()
      modifies this, preflight, onflight
      ensures Valid()
      ensures Lists(preOrder, old(preflight.acquiredBy))
      ensures Lists(onOrder, old(onflight.acquiredBy))
      ensures View() == old(View()).UpdateLimits(maxPre, maxOn, preOrder, onOrder)
      ensures ok <==> !old(View()).SlicesPre(maxPre) && !old(View()).SlicesOn(maxOn)
    {
      ok, preOrder := TrimPreflight(maxPre);
      if !ok {
        onOrder := onflight.ListAcquired();
        return;
      }
      ok, onOrder := TrimOnflight(maxOn);
      if !ok {
        return;
      }
      sig := true;
    }

    method Onflight() returns (n: int)
      requires Valid()
      ensures n == |View().on.owners|
    {
      n := onflight.Current();
    }

    /** `outcome` is the operating system's answer; `ok` is false on the slot pool's panic. */
    method LaunchProcessUnsafe(pid: int, outcome: LaunchOutcome, now: int) returns (ok: bool)
      requires Valid()
      modifies this, preflight, sched, sched.h
      ensures Valid() && View() == old(View()).Launch(pid, outcome, now)
      ensures ok <==> outcome.Started? || pid in old(preflight.acquiredBy)
    {
      if outcome.Started? {
        ps := ps + {pid};
        return true;
      }
      ok := FailLaunch(pid, outcome, now);
    }

    /** The process could not be built, or was entered into the table and could not be started. */
    method FailLaunch(pid: int, outcome: LaunchOutcome, now: int) returns (ok: bool)
      requires Valid() && !outcome.Started?
      modifies this`ps, this`sig, preflight, sched, sched.h
      ensures Valid() && View() == old(View()).Launch(pid, outcome, now)
      ensures ok <==> pid in old(preflight.acquiredBy)
    {
      var spec := if pid in specs then specs[pid] else ZERO_SPEC;
      if outcome.NotStarted? {
        ps := ps + {pid};
        ps := ps - {pid};
        assert ps == old(ps) - {pid};
      }
      ok := ReturnSlotAndRetry(pid, now + spec.cooldown);
    }

    /** A launch that failed: the slot goes back, the PID on the schedule. */
    method ReturnSlotAndRetry(pid: int, at: int) returns (ok: bool)
      requires Valid()
      modifies this`sig, preflight, sched, sched.h
      ensures Valid() && View() == old(View()).(pre := old(View()).pre.Release(pid)).Schedule(pid, at)
      ensures ok <==> pid in old(preflight.acquiredBy)
    {
      ok := preflight.Release(pid);
      ScheduleUnsafe(pid, at);
    }

    /** One locked section of the loop: from taking the lock to giving it up. */
    method LoopTurn(outcome: LaunchOutcome, now: int) returns (r: Turn)
      requires Valid()
      modifies this, preflight, sched, sched.h
      ensures Valid()
      ensures r.Empty? <==> old(View()).sched == map[]
      ensures !r.Empty? ==> r.pid in old(View()).sched
      ensures !r.Empty? ==> forall q :: q in old(View()).sched ==>
                old(View()).sched[r.pid] <= old(View()).sched[q]
      ensures r.Later? <==> old(View()).sched != map[] && now < old(View()).sched[r.pid]
      ensures r.Later? ==> r.when == old(View()).sched[r.pid]
      ensures r.Tried? ==> r.outcome == old(View()).pre.Try(r.pid)
      ensures r.Tried? && r.outcome.Acquired? ==> View() == old(View()).Take(r.pid).Launch(r.pid, outcome, now)
      ensures !(r.Tried? && r.outcome.Acquired?) ==> View() == old(View())
    {
      var next := sched.Next();
      if next.None? {
        return Empty;
      }
      var (pid, when) := next.value;
      var delay := when - now;
      if delay > 0 {
        return Later(pid, when);
      }
      var got := preflight.TryAcquire(pid);
      if !got.Acquired? {
        return Tried(pid, got);
      }
      sched.Pop();
      assert View() == old(View()).Take(pid);
      assert forall i :: 0 <= i < |sched.h| ==> sched.h[i] in old(sched.h);
      var _ := LaunchProcessUnsafe(pid, outcome, now);
      return Tried(pid, got);
    }

    method HandleExit(pid: int, uid: int, now: int)
      requires Valid()
      modifies this, gen, sched, sched.h
      ensures Valid() && View() == old(View()).HandleExit(pid, uid, now)
    {
      ps := ps - {pid};
      closing := closing - {pid};
      if uid in units && units[uid] == pid {
        var spec := if pid in specs then specs[pid] else ZERO_SPEC;
        ScheduleUnsafe(pid, now + spec.cooldown);
        return;
      }
      gen.Release(pid);
    }

    /** A supervisor from a started process to the exit handler that it defers, when nobody interferes:
        `readyFirst` says that Ready fires before Done, `enterOk` how Enter goes. */
    method Supervise(pid: int, readyFirst: bool, enterOk: bool)
      requires Valid()
      requires pid in preflight.acquiredBy && pid !in onflight.acquiredBy
      modifies this`closing, preflight, onflight
      ensures Valid() && View() == old(View()).Supervised(pid, readyFirst, enterOk)
    {
      if !readyFirst {
        var _ := preflight.Release(pid);
        return;
      }
      var got := onflight.TryAcquire(pid);
      if !got.Acquired? {
        closing := closing + {pid};
        var _ := preflight.Release(pid);
        return;
      }
      Promoted(pid, enterOk);
      assert onflight.acquiredBy == old(onflight.acquiredBy);
    }

    /** The rest for a process that has its onflight slot. */
    method Promoted(pid: int, enterOk: bool)
      requires Valid() && pid in preflight.acquiredBy && pid in onflight.acquiredBy
      modifies this`closing, preflight, onflight
      ensures Valid()
      ensures View() == old(View()).(pre := old(View()).pre.Release(pid), on := old(View()).on.Release(pid),
                                     closing := if enterOk then old(closing) else old(closing) + {pid})
    {
      var _ := preflight.Release(pid);
      if !enterOk {
        closing := closing + {pid};
      }
      var _ := onflight.Release(pid);
    }

    /** A supervisor's whole life. */
    method SuperviseInstance(pid: int, uid: int, readyFirst: bool, enterOk: bool, now: int)
      requires Valid()
      requires pid in preflight.acquiredBy && pid !in onflight.acquiredBy
      modifies this, gen, preflight, onflight, sched, sched.h
      ensures Valid()
      ensures View() == old(View()).Supervised(pid, readyFirst, enterOk).HandleExit(pid, uid, now)
    {
      Supervise(pid, readyFirst, enterOk);
      HandleExit(pid, uid, now);
    }
  }
}

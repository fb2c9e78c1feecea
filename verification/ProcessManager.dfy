/** The first process manager's methods (internal/infrastructure/processmgr/process_manager.go).  Each is
    one critical section, proved to do to `View` what the functions of Manager1Machine say. */
module ProcessManagers {
  import opened Wrappers
  import opened PidAllocation
  import opened Scheduling
  import opened ExecSpecs
  import opened Manager1Machine

  /** What one turn of the loop came to. */
  datatype Turn = Idle | Later(pid: int, when: int) | Launched(pid: int)

  class ProcessManager {
    var units: map<int, int>
    var specs: map<int, Spec>
    var ps: set<int>
    const gen: PidAllocator
    const sched: Scheduler
    var sig: bool

    ghost function Repr(): (r: set<object>)
      reads this, sched
    {
      {this, gen, sched} + set e | e in sched.h
    }

    ghost predicate Valid()
      reads this, gen, sched, sched.h
    {
      gen.Valid() && gen.pidMax == PID_MAX && sched.Valid()
    }

    ghost function View(): (r: Core)
      requires Valid()
      reads this, gen, sched, sched.h
    {
      Core(units, specs, ps, gen.next, gen.inUse, sched.View(), sig)
    }

    constructor ()
      ensures Valid() && fresh(Repr()) && View() == Init(0).core
    {
      units, specs, ps, sig := map[], map[], {}, false;
      gen := new PidAllocator();
      sched := new Scheduler();
    }

    method ScheduleUnsafe(pid: int, at: int)
      requires Valid()
      modifies this`sig, sched, sched.h
      ensures Valid() && View() == old(View()).Schedule(pid, at)
    {
      sched.Push(pid, at);
      sig := true;
    }

    /** `false` is the allocator's panic. */
    method Add(uid: int, argv: seq<string>, cooldown: int, now: int) returns (ok: bool)
      requires Valid()
      modifies this, gen, sched, sched.h
      ensures Valid() && View() == old(View()).Add(uid, argv, cooldown, now)
      ensures ok <==> uid in old(units) || old(View()).NewPid().Some?
    {
      if uid in units {
        return true;
      }
      var r := gen.Alloc();
      if r.None? {
        return false;
      }
      var pid := r.value;
      units := units[uid := pid];
      specs := specs[pid := Spec(uid, argv, cooldown)];
      ScheduleUnsafe(pid, now);
      return true;
    }

    /** `closed` reports whether a process was asked to shut down. */
    method Remove(uid: int) returns (closed: bool)
      requires Valid()
      modifies this, sched, sched.h
      ensures Valid() && View() == old(View()).Remove(uid)
      ensures closed <==> uid in old(units) && old(units)[uid] in old(ps)
    {
      if uid !in units {
        return false;
      }
      var pid := units[uid];
      closed := pid in ps;
      units := units - {uid};
      specs := specs - {pid};
      ps := ps - {pid};
      sched.Remove(pid);
    }

    /** The part of launchProcessUnsafe that runs under the lock, for a PID already off the schedule. */
    method LaunchProcessUnsafe(pid: int, outcome: LaunchOutcome, now: int)
      requires Valid() && pid !in sched.View()
      modifies this, sched, sched.h
      ensures Valid() && View() == old(View()).Launch(pid, outcome, now)
    {
      var spec := if pid in specs then specs[pid] else ZERO_SPEC;
      assert sched.View() - {pid} == sched.View();
      if outcome.NotConstructed? {
        ScheduleUnsafe(pid, now + spec.cooldown);
        return;
      }
      ps := ps + {pid};
      if outcome.NotStarted? {
        ps := ps - {pid};
        ScheduleUnsafe(pid, now + spec.cooldown);
      }
    }

    /** One locked section of the loop. */
    method LoopTurn(outcome: LaunchOutcome, now: int) returns (r: Turn)
      requires Valid()
      modifies this, sched, sched.h
      ensures Valid()
      ensures r.Idle? <==> old(View()).sched == map[]
      ensures !r.Idle? ==> Soonest(old(View()).sched, r.pid)
      ensures r.Later? ==> now < r.when == old(View()).sched[r.pid]
      ensures r.Launched? ==> old(View()).sched[r.pid] <= now && View() == old(View()).Launch(r.pid, outcome, now)
      ensures !r.Launched? ==> View() == old(View())
    {
      var next := sched.Next();
      if next.None? {
        return Idle;
      }
      var (pid, when) := next.value;
      var delay := when - now;
      if delay > 0 {
        return Later(pid, when);
      }
      PopAndLaunch(pid, outcome, now);
      return Launched(pid);
    }

    method PopAndLaunch(pid: int, outcome: LaunchOutcome, now: int)
      requires Valid() && |sched.h| > 0 && sched.h[0].id == pid
      modifies this, sched, sched.h
      ensures Valid() && View() == old(View()).Launch(pid, outcome, now)
    {
      ghost var before := View();
      PopHead(pid);
      assert forall i :: 0 <= i < |sched.h| ==> sched.h[i] in old(sched.h);
      LaunchOnce(before, pid, outcome, now);
      LaunchProcessUnsafe(pid, outcome, now);
    }

    method PopHead(ghost pid: int)
      requires Valid() && |sched.h| > 0 && sched.h[0].id == pid
      modifies sched, sched.h
      ensures Valid() && View() == old(View()).(sched := old(View()).sched - {pid})
      ensures forall e :: e in sched.h ==> e in old(sched.h)
    {
      sched.Pop();
    }

    static lemma LaunchOnce(c: Core, pid: int, outcome: LaunchOutcome, now: int)
      ensures c.(sched := c.sched - {pid}).Launch(pid, outcome, now) == c.Launch(pid, outcome, now)
    {
      assert c.sched - {pid} - {pid} == c.sched - {pid};
    }

    /** The exit handler, after Done. */
    method HandleExit(pid: int, spec: Spec, now: int)
      requires Valid()
      modifies this, gen, sched, sched.h
      ensures Valid() && View() == old(View()).HandleExit(pid, spec, now)
    {
      ps := ps - {pid};
      if spec.uid in units && units[spec.uid] == pid {
        ScheduleUnsafe(pid, now + spec.cooldown);
        return;
      }
      gen.Release(pid);
    }
  }
}

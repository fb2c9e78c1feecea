/** The functions that the methods of the class ProcessManager2 compute are runs of the machine in
    which nobody else takes a step. */
module Manager2Refinement {
  import opened SlotPools
  import opened ExecSpecs
  import opened Manager2Core
  import opened Manager2Machine
  import opened Manager2Invariant

  /** One locked section of the loop that takes a due PID. */
  lemma TurnIsARun(s: State, pid: int, outcome: LaunchOutcome)
    requires Inv(s) && s.loop.WantLock? && LockFree(s) && Soonest(s.core.sched, pid) && s.core.sched[pid] <= s.now
    requires s.core.pre.Try(pid).Acquired?
    ensures exists t: State :: Reaches(Any, s, t) && t.core == s.core.Take(pid).Launch(pid, outcome, s.now)
              && t.loop.WaitPre? && t.upd.Idle? && t.faults == s.faults
              && (outcome.Started? <==> InPhase(t, pid, Warm))
  {
    assert Placed(s, pid);
    var u := TakeIsARun(s, pid);
    var t := Then(Any, s, u, LoopLaunch(outcome));
    assert t.core == s.core.Take(pid).Launch(pid, outcome, s.now);
  }

  lemma TakeIsARun(s: State, pid: int) returns (t: State)
    requires s.loop.WantLock? && LockFree(s) && Soonest(s.core.sched, pid) && s.core.sched[pid] <= s.now
    requires s.core.pre.Try(pid).Acquired?
    ensures Reaches(Any, s, t) && t == s.(core := s.core.Take(pid), loop := Launching(pid))
  {
    Stay(Any, s);
    var u := Then(Any, s, s, LoopLock(pid));
    assert u == s.(loop := Due(pid));
    t := Then(Any, s, u, LoopTryAcquire);
  }

  lemma {:induction false} ClosePreIsARun(s0: State, s: State) returns (t: State)
    requires Reaches(Any, s0, s) && s.upd.ClosePre?
    ensures Reaches(Any, s0, t) && t == s.(core := s.core.CloseAll(s.upd.todo), upd := CheckOn(s.upd.maxOn))
    decreases |s.upd.todo|
  {
    var u := Then(Any, s0, s, UpdateClosePre);
    if s.upd.todo == [] {
      t := u;
    } else {
      t := ClosePreIsARun(s0, u);
    }
  }

  lemma {:induction false} CloseOnIsARun(s0: State, s: State) returns (t: State)
    requires Reaches(Any, s0, s) && s.upd.CloseOn?
    ensures Reaches(Any, s0, t) && t == FinishUpdate(s.(core := s.core.CloseAll(s.upd.todo)))
    decreases |s.upd.todo|
  {
    var u := Then(Any, s0, s, UpdateCloseOn);
    if s.upd.todo == [] {
      t := u;
    } else {
      t := CloseOnIsARun(s0, u);
    }
  }

  lemma TrimPreIsARun(s: State, maxPre: int, maxOn: int, order: seq<int>) returns (t: State)
    requires LockFree(s) && Lists(order, s.core.pre.owners)
    ensures Reaches(Any, s, t)
    ensures !s.core.SlicesPre(maxPre) ==> t == s.(core := s.core.TrimPre(maxPre, order), upd := CheckOn(maxOn))
    ensures s.core.SlicesPre(maxPre) ==> t == Blame(s.(core := s.core.TrimPre(maxPre, order)), true, SliceBounds)
  {
    Stay(Any, s);
    t := Then(Any, s, s, UpdateBegin(maxPre, maxOn));
    if t.upd.ListPre? {
      t := ListPreIsARun(s, t, order);
    }
  }

  lemma ListPreIsARun(s0: State, s: State, order: seq<int>) returns (t: State)
    requires Reaches(Any, s0, s) && s.upd.ListPre? && Lists(order, s.core.pre.owners)
    ensures Reaches(Any, s0, t)
    ensures s.upd.maxPre >= 0 ==> t == s.(core := s.core.CloseExcess(order, s.upd.maxPre), upd := CheckOn(s.upd.maxOn))
    ensures s.upd.maxPre < 0 ==> t == Blame(s.(upd := Idle), true, SliceBounds)
  {
    t := Then(Any, s0, s, UpdateListPre(order));
    if t.upd.ClosePre? {
      t := ClosePreIsARun(s0, t);
    }
  }

  lemma TrimOnIsARun(s0: State, s: State, order: seq<int>) returns (t: State)
    requires Reaches(Any, s0, s) && s.upd.CheckOn? && Lists(order, s.core.on.owners)
    ensures Reaches(Any, s0, t)
    ensures !s.core.SlicesOn(s.upd.maxOn) ==> t == FinishUpdate(s.(core := s.core.TrimOn(s.upd.maxOn, order)))
    ensures s.core.SlicesOn(s.upd.maxOn) ==>
              t == Blame(s.(core := s.core.TrimOn(s.upd.maxOn, order), upd := Idle), true, SliceBounds)
  {
    t := Then(Any, s0, s, UpdateCheckOn);
    if t.upd.ListOn? {
      t := Then(Any, s0, t, UpdateListOn(order));
      if t.upd.CloseOn? {
        t := CloseOnIsARun(s0, t);
      }
    }
  }

  lemma {:induction false} CloseAllKeepsPools(c: Core, todo: seq<int>)
    ensures c.CloseAll(todo).on == c.on && c.CloseAll(todo).pre == c.pre
    decreases |todo|
  {
    if todo != [] {
      CloseAllKeepsPools(c.Close(todo[0]), todo[1..]);
    }
  }

  lemma TrimPreKeepsOn(c: Core, max: int, order: seq<int>)
    ensures c.TrimPre(max, order).on == c.on
  {
    if 0 <= max < |order| {
      CloseAllKeepsPools(c.(pre := c.pre.WithLimit(max)), order[..|order| - max]);
    }
  }

  /** A whole call of UpdateLimits; it ends in the out-of-range slice exactly for a negative limit that
      differs from the pool's current one. */
  lemma UpdateIsARun(s: State, maxPre: int, maxOn: int, preOrder: seq<int>, onOrder: seq<int>)
    requires LockFree(s) && Lists(preOrder, s.core.pre.owners) && Lists(onOrder, s.core.on.owners)
    ensures exists t: State :: Reaches(Any, s, t) && t.core == s.core.UpdateLimits(maxPre, maxOn, preOrder, onOrder)
              && t.upd.Idle? && t.loop == s.loop && t.sups == s.sups
              && t.faults
                 == s.faults + (if s.core.SlicesPre(maxPre) || s.core.SlicesOn(maxOn) then {SliceBounds} else {})
  {
    TrimPreKeepsOn(s.core, maxPre, preOrder);
    var t := TrimPreIsARun(s, maxPre, maxOn, preOrder);
    if !s.core.SlicesPre(maxPre) {
      t := TrimOnIsARun(s, t, onOrder);
    }
    assert Reaches(Any, s, t) && t.core == s.core.UpdateLimits(maxPre, maxOn, preOrder, onOrder);
  }

  /** A supervisor's whole life, from the start of its process on. */
  lemma SupervisionIsARun(s: State, pid: int, readyFirst: bool, enterOk: bool)
    requires Inv(s) && LockFree(s) && InPhase(s, pid, Warm)
    ensures exists t: State :: Reaches(Any, s, t) && pid !in t.sups && t.faults == s.faults
              && t.core == s.core.Supervised(pid, readyFirst, enterOk).HandleExit(pid, s.sups[pid].uid, s.now)
  {
    var b := Settle(s, pid);
    var c := BeforeExit(s, b, pid, readyFirst, enterOk);
    var t := ExitFrom(s, c, pid, s.faults);
  }

  /** The environment makes the process ready and finishes it. */
  lemma Settle(s: State, pid: int) returns (t: State)
    requires Slots(s) && LockFree(s) && InPhase(s, pid, Warm)
    ensures Reaches(Any, s, t) && Waiting(t, pid) && t.sups[pid].uid == s.sups[pid].uid
    ensures t.core == s.core && t.now == s.now && t.faults == s.faults
  {
    Stay(Any, s);
    var u := Tell(s, s, pid, false);
    t := Tell(s, u, pid, true);
  }

  lemma Tell(s0: State, s: State, pid: int, finished: bool) returns (t: State)
    requires Reaches(Any, s0, s) && pid in s.sups
    ensures Reaches(Any, s0, t) && t == EnvStep(s, pid, finished)
  {
    t := Then(Any, s0, s, if finished then EnvDone(pid) else EnvReady(pid));
  }

  lemma ExitFrom(s0: State, s: State, pid: int, faults: set<Fault>) returns (t: State)
    requires Reaches(Any, s0, s) && LockFree(s) && InPhase(s, pid, Exiting) && s.faults == faults
    requires s.core.Authoritative(pid, s.sups[pid].uid) ==> pid in s.core.specs
    ensures Reaches(Any, s0, t) && pid !in t.sups && t.faults == faults
    ensures t.core == s.core.HandleExit(pid, s.sups[pid].uid, s.now)
  {
    t := Then(Any, s0, s, SupExit(pid));
  }

  /** Ready and finished, waiting to be noticed. */
  ghost predicate Waiting(s: State, pid: int) {
    LockFree(s) && InPhase(s, pid, Warm) && s.sups[pid].ready && s.sups[pid].done && Slots(s)
  }

  lemma BeforeExit(s0: State, s: State, pid: int, readyFirst: bool, enterOk: bool) returns (t: State)
    requires Reaches(Any, s0, s) && Waiting(s, pid)
    ensures Reaches(Any, s0, t) && LockFree(t) && InPhase(t, pid, Exiting) && t.sups[pid].uid == s.sups[pid].uid
    ensures t.core == s.core.Supervised(pid, readyFirst, enterOk) && t.now == s.now && t.faults == s.faults
  {
    if !readyFirst {
      t := Then(Any, s0, s, SupDoneEarly(pid));
    } else if !s.core.on.Try(pid).Acquired? {
      t := TurnedDown(s0, s, pid);
    } else {
      t := Promoted(s0, s, pid, enterOk);
      assert t.core.on.owners == s.core.on.owners;
    }
  }

  lemma TurnedDown(s0: State, s: State, pid: int) returns (t: State)
    requires Reaches(Any, s0, s) && Waiting(s, pid) && !s.core.on.Try(pid).Acquired?
    ensures Reaches(Any, s0, t) && LockFree(t) && InPhase(t, pid, Exiting) && t.sups[pid].uid == s.sups[pid].uid
    ensures t.now == s.now && t.faults == s.faults
    ensures t.core == s.core.(pre := s.core.pre.Release(pid), closing := s.core.closing + {pid})
  {
    t := Then(Any, s0, s, SupReady(pid));
    t := Then(Any, s0, t, SupRefuse(pid));
  }

  lemma Promoted(s0: State, s: State, pid: int, enterOk: bool) returns (t: State)
    requires Reaches(Any, s0, s) && Waiting(s, pid) && s.core.on.Try(pid).Acquired?
    ensures Reaches(Any, s0, t) && LockFree(t) && InPhase(t, pid, Exiting) && t.sups[pid].uid == s.sups[pid].uid
    ensures t.now == s.now && t.faults == s.faults
    ensures t.core == s.core.(pre := s.core.pre.Release(pid), on := s.core.on.Acquire(pid).Release(pid),
                              closing := if enterOk then s.core.closing else s.core.closing + {pid})
  {
    t := Then(Any, s0, s, SupReady(pid));
    t := Then(Any, s0, t, SupReleasePre(pid));
    t := Then(Any, s0, t, SupEnter(pid, enterOk));
    if enterOk {
      t := Then(Any, s0, t, SupDone(pid));
    }
  }
}

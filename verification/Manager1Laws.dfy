/** What each step of the first manager changes: when what is launched, with which spec, and what becomes
    of a launch that fails. */
module Manager1Laws {
  import opened Wrappers
  import opened PidAllocation
  import opened ExecSpecs
  import opened Manager1Machine
  import opened Manager1Invariant

  /** The loop launches this PID now: it is pending, its time has come and no other precedes it. */
  ghost predicate LaunchesNow(s: State, a: Action, p: int) {
    && a.LoopTurn? && a.pid == p && p in s.core.sched && s.core.sched[p] <= s.now
    && forall q :: q in s.core.sched ==> s.core.sched[p] <= s.core.sched[q]
  }

  /** This step puts the PID on the schedule: a new unit's, one whose launch failed, or one whose
      process is gone and whose unit is still registered. */
  ghost predicate Schedules(s: State, a: Action, p: int) {
    || (a.Add? && a.uid !in s.core.units && s.core.NewPid() == Some(p))
    || (LaunchesNow(s, a, p) && !a.outcome.Started?)
    || (a == Exit(p) && p in s.core.specs)
  }

  function LaunchTime(s: State, a: Action, p: int): (r: int) {
    if a.Add? || p !in s.core.specs then s.now else s.now + s.core.specs[p].cooldown
  }

  ghost predicate Unschedules(s: State, a: Action, p: int) {
    || (a.Remove? && a.uid in s.core.units && p == s.core.units[a.uid])
    || (LaunchesNow(s, a, p) && a.outcome.Started?)
  }

  ghost predicate SchedulesRight(s: State, a: Action, t: State) {
    forall p ::
      && (Schedules(s, a, p) ==> p in t.core.sched && t.core.sched[p] == LaunchTime(s, a, p))
      && (Unschedules(s, a, p) ==> p !in t.core.sched)
      && (!Schedules(s, a, p) && !Unschedules(s, a, p) ==>
            (p in t.core.sched <==> p in s.core.sched)
            && (p in s.core.sched ==> t.core.sched[p] == s.core.sched[p]))
  }

  /** A process is started with the spec of its unit, by a launch that succeeds and by nothing else; it is
      reaped where it stands, and gone after its exit handler. */
  ghost predicate ProcessesRight(s: State, a: Action, t: State) {
    if a.LoopTurn? && a.outcome.Started? && LaunchesNow(s, a, a.pid)
    then a.pid in s.core.specs && t.procs == s.procs[a.pid := Instance(s.core.specs[a.pid], false)]
    else if a.Finish? then a.pid in s.procs && t.procs == s.procs[a.pid := s.procs[a.pid].(done := true)]
    else if a.Exit? then t.procs == s.procs - {a.pid}
    else t.procs == s.procs
  }

  /** Whose PID is whose, and with which command line and cooldown, changes by Add and Remove alone. */
  ghost predicate TablesRight(s: State, a: Action, t: State) {
    if a.Add? && a.uid !in s.core.units && s.core.NewPid().Some? then
      var p := s.core.NewPid().value;
      && t.core.units == s.core.units[a.uid := p] && t.core.inUse == s.core.inUse + {p}
      && t.core.specs == s.core.specs[p := Spec(a.uid, a.argv, a.cooldown)]
      && t.core.next == if p == 32768 then 1 else p + 1
    else if a.Remove? && a.uid in s.core.units then
      && t.core.units == s.core.units - {a.uid} && t.core.specs == s.core.specs - {s.core.units[a.uid]}
      && t.core.inUse == s.core.inUse
    else
      && t.core.units == s.core.units && t.core.specs == s.core.specs
      && (!a.Exit? ==> t.core.inUse == s.core.inUse)
  }

  lemma TurnSchedules(s: State, pid: int, outcome: LaunchOutcome)
    requires Inv(s) && Enabled(s, LoopTurn(pid, outcome))
    ensures SchedulesRight(s, LoopTurn(pid, outcome), TurnStep(s, pid, outcome))
  {
  }

  lemma ExitSchedules(s: State, pid: int)
    requires Inv(s) && pid in s.procs
    ensures SchedulesRight(s, Exit(pid), ExitStep(s, pid))
  {
  }

  /** How every step changes the schedule: what goes on it and for when, what goes off it, and that all
      else stays as it was. */
  lemma ScheduleChanges(s: State, a: Action)
    requires Inv(s) && Enabled(s, a)
    ensures SchedulesRight(s, a, Apply(s, a))
  {
    if a.LoopTurn? {
      TurnSchedules(s, a.pid, a.outcome);
    } else if a.Exit? {
      ExitSchedules(s, a.pid);
    }
  }

  lemma ProcessChanges(s: State, a: Action)
    requires Inv(s) && Enabled(s, a)
    ensures ProcessesRight(s, a, Apply(s, a))
  {
  }

  lemma TableChanges(s: State, a: Action)
    requires Inv(s) && Enabled(s, a)
    ensures TablesRight(s, a, Apply(s, a))
  {
  }

  /** A failed launch, in full: the PID waits for its unit's cooldown, and all else is as it was. */
  lemma FailedLaunchIsConfined(s: State, pid: int, outcome: LaunchOutcome)
    requires Reachable(s) && Enabled(s, LoopTurn(pid, outcome)) && !outcome.Started?
    requires pid in s.core.sched && s.core.sched[pid] <= s.now
    ensures var t := Apply(s, LoopTurn(pid, outcome));
            && pid in s.core.specs
            && t.core.sched == s.core.sched[pid := s.now + s.core.specs[pid].cooldown]
            && t.core.units == s.core.units && t.core.specs == s.core.specs && t.core.inUse == s.core.inUse
            && t.core.ps == s.core.ps && t.procs == s.procs
  {
    ReachableInv(s);
    assert pid !in s.procs;
    assert s.core.ps - {pid} == s.core.ps;
  }

  /** A turn of the loop with nothing due waits for the soonest time there is, or for something to be
      scheduled. */
  lemma ParksIffNothingDue(s: State, pid: int, outcome: LaunchOutcome)
    requires Enabled(s, LoopTurn(pid, outcome))
    ensures var t := Apply(s, LoopTurn(pid, outcome));
            && (t.loop.Awake? <==> exists q :: q in s.core.sched && s.core.sched[q] <= s.now)
            && (t.loop.ParkedEmpty? <==> s.core.sched == map[])
            && (t.loop.ParkedUntil? ==> exists q :: q in s.core.sched && s.core.sched[q] == t.loop.deadline)
            && (t.loop.ParkedUntil? ==> forall q :: q in s.core.sched ==> s.now < t.loop.deadline <= s.core.sched[q])
            && (!t.loop.Awake? ==> t.core == s.core && t.procs == s.procs)
  {
    if s.core.sched != map[] {
      assert pid in s.core.sched;
    }
  }

  /** No PID in the whole range is free. */
  ghost predicate NoneFree(s: State) {
    forall p :: 1 <= p <= 32768 ==> p in s.core.inUse
  }

  /** The one panic there is: a new unit when no PID is free. */
  lemma FaultChanges(s: State, a: Action)
    requires Reachable(s) && Enabled(s, a)
    ensures Apply(s, a).faults
            == s.faults + if a.Add? && a.uid !in s.core.units && NoneFree(s) then {PidsExhausted} else {}
  {
    ReachableInv(s);
    StepKeepsInv(s, a);
    ExhaustedIffFull(s.core.next, s.core.inUse, PID_MAX);
    assert forall p :: InRange(p, PID_MAX) <==> 1 <= p <= 32768;
  }
}

/** When the second manager launches what: how the schedule changes, that nothing is launched before its
    time or ahead of something due earlier, and where supervisors go. */
module Manager2Timing {
  import opened Wrappers
  import opened SlotPools
  import opened PidAllocation
  import opened ExecSpecs
  import opened Manager2Core
  import opened Manager2Machine
  import opened Manager2Invariant

  // ---- The schedule ----

  /** This step puts the PID on the schedule: a new unit's, one whose launch failed, or one whose
      process is gone and whose unit is still registered. */
  predicate Schedules(s: State, a: Action, p: int) {
    || (a.Add? && a.uid !in s.core.units && s.core.NewPid() == Some(p))
    || (a.LoopLaunch? && !a.outcome.Started? && s.loop == Launching(p))
    || (a.SupExit? && p == a.pid && p in s.core.specs)
  }

  /** A new unit is launched at once, anything else after its unit's restart cooldown. */
  function LaunchTime(s: State, a: Action, p: int): (r: int) {
    if a.Add? || p !in s.core.specs then s.now else s.now + s.core.specs[p].cooldown
  }

  /** This step takes the PID off the schedule: with its unit, or for a launch that has its slot. */
  predicate Unschedules(s: State, a: Action, p: int) {
    || (a.Remove? && a.uid in s.core.units && p == s.core.units[a.uid])
    || (a.LoopTryAcquire? && s.loop == Due(p) && s.core.pre.usage < s.core.pre.maxCap)
  }

  ghost predicate SchedulesRight(s: State, a: Action, t: State) {
    forall p ::
      && (Schedules(s, a, p) ==> p in t.core.sched && t.core.sched[p] == LaunchTime(s, a, p))
      && (Unschedules(s, a, p) ==> p !in t.core.sched)
      && (!Schedules(s, a, p) && !Unschedules(s, a, p) ==>
            (p in t.core.sched <==> p in s.core.sched)
            && (p in s.core.sched ==> t.core.sched[p] == s.core.sched[p]))
  }

  lemma SameSchedule(s: State, a: Action, t: State)
    requires t.core.sched == s.core.sched
    requires !a.Add? && !a.Remove? && !a.SupExit? && !a.LoopLaunch? && !a.LoopTryAcquire?
    ensures SchedulesRight(s, a, t)
  {
  }

  lemma AddSchedules(s: State, uid: int, argv: seq<string>, cooldown: int)
    requires Inv(s)
    ensures SchedulesRight(s, Add(uid, argv, cooldown), AddStep(s, uid, argv, cooldown))
  {
  }

  lemma RemoveUnschedules(s: State, uid: int)
    requires Inv(s)
    ensures SchedulesRight(s, Remove(uid), s.(core := s.core.Remove(uid)))
  {
  }

  lemma TakenOffSchedule(s: State)
    requires Inv(s) && s.loop.Due?
    ensures SchedulesRight(s, LoopTryAcquire, TryAcquireStep(s))
  {
    assert Placed(s, s.loop.pid);
  }

  lemma LaunchSchedules(s: State, outcome: LaunchOutcome)
    requires Inv(s) && s.loop.Launching?
    ensures SchedulesRight(s, LoopLaunch(outcome), LaunchStep(s, outcome))
  {
  }

  lemma ExitSchedules(s: State, pid: int)
    requires Inv(s) && pid in s.sups
    ensures SchedulesRight(s, SupExit(pid), ExitStep(s, pid))
  {
  }

  /** Same units, same specs, same schedule. */
  predicate SamePlans(c: Core, d: Core) {
    d.units == c.units && d.specs == c.specs && d.sched == c.sched
  }

  lemma OthersKeepPlans(s: State, a: Action)
    requires Enabled(s, a)
    requires !a.Add? && !a.Remove? && !a.SupExit? && !a.LoopLaunch? && !a.LoopTryAcquire?
    ensures SamePlans(s.core, Apply(s, a).core)
  {
    if CallerAction(a) {
      UpdateKeepsPlans(s, a);
    } else if SupAction(a) {
      SupKeepsPlans(s, a);
    }
  }

  lemma UpdateKeepsPlans(s: State, a: Action)
    requires Enabled(s, a) && CallerAction(a) && !a.Add? && !a.Remove?
    ensures SamePlans(s.core, Apply(s, a).core)
  {
    match a
    case UpdateBegin(maxPre, maxOn) => assert SamePlans(s.core, BeginStep(s, maxPre, maxOn).core);
    case UpdateListPre(owners) => assert SamePlans(s.core, ListPreStep(s, owners).core);
    case UpdateClosePre => assert SamePlans(s.core, ClosePreStep(s).core);
    case UpdateCheckOn => assert SamePlans(s.core, CheckOnStep(s).core);
    case UpdateListOn(owners) => assert SamePlans(s.core, ListOnStep(s, owners).core);
    case UpdateCloseOn => assert SamePlans(s.core, CloseOnStep(s).core);
  }

  lemma SupKeepsPlans(s: State, a: Action)
    requires Enabled(s, a) && SupAction(a) && !a.SupExit?
    ensures SamePlans(s.core, Apply(s, a).core)
  {
    match a
    case SupReady(pid) => assert SamePlans(s.core, ReadyStep(s, pid).core);
    case SupReleasePre(pid) => assert SamePlans(s.core, ReleasePreStep(s, pid).core);
    case SupEnter(pid, ok) => assert SamePlans(s.core, EnterStep(s, pid, ok).core);
    case SupRefuse(pid) => assert SamePlans(s.core, RefuseStep(s, pid).core);
    case SupDoneEarly(pid) => assert SamePlans(s.core, DoneEarlyStep(s, pid).core);
    case SupDone(pid) => assert SamePlans(s.core, DoneStep(s, pid).core);
  }

  /** How every step changes the schedule: what goes on it and for when, what goes off it, and that all
      else stays as it was. */
  lemma ScheduleChanges(s: State, a: Action)
    requires Inv(s) && Enabled(s, a)
    ensures SchedulesRight(s, a, Apply(s, a))
  {
    if a.Add? {
      AddSchedules(s, a.uid, a.argv, a.cooldown);
    } else if a.Remove? {
      RemoveUnschedules(s, a.uid);
    } else if a.LoopTryAcquire? {
      TakenOffSchedule(s);
    } else if a.LoopLaunch? {
      LaunchSchedules(s, a.outcome);
    } else if a.SupExit? {
      ExitSchedules(s, a.pid);
    } else {
      OthersKeepPlans(s, a);
      SameSchedule(s, a, Apply(s, a));
    }
  }

  /** The slot is given back, the PID waits for the unit's cooldown, and all else is as it was. */
  ghost predicate LaunchFailed(s: State, pid: int, t: State) {
    && pid in s.core.specs
    && t.core.sched == s.core.sched[pid := s.now + s.core.specs[pid].cooldown]
    && t.core.pre.owners == s.core.pre.owners - {pid} && t.core.pre.maxCap == s.core.pre.maxCap
    && t.core.units == s.core.units && t.core.specs == s.core.specs && t.core.inUse == s.core.inUse
    && t.core.on == s.core.on && t.core.ps == s.core.ps && t.core.closing == s.core.closing
    && t.sups == s.sups && t.loop.WaitPre?
  }

  /** A failed launch, in full. */
  lemma FailedLaunchIsConfined(P: int, O: int, s: State, outcome: LaunchOutcome)
    requires Reachable(P, O, Any, s) && s.loop.Launching? && !outcome.Started?
    ensures LaunchFailed(s, s.loop.pid, Apply(s, LoopLaunch(outcome)))
  {
    ReachableInv(P, O, Any, s);
    FailedLaunchChanges(s, outcome);
  }

  lemma FailedLaunchChanges(s: State, outcome: LaunchOutcome)
    requires Inv(s) && s.loop.Launching? && !outcome.Started?
    ensures LaunchFailed(s, s.loop.pid, LaunchStep(s, outcome))
  {
    assert Placed(s, s.loop.pid);
    assert s.core.ps - {s.loop.pid} == s.core.ps;
  }

  // ---- Units and specs ----

  /** Whose PID is whose, and with which command line and cooldown, changes by Add and Remove alone. */
  lemma TableChanges(s: State, a: Action)
    requires Inv(s) && Enabled(s, a)
    ensures var c, d := s.core, Apply(s, a).core;
            && (a.Add? && a.uid !in c.units && c.NewPid().Some? ==>
                  var p := c.NewPid().value;
                  && d.units == c.units[a.uid := p] && d.specs == c.specs[p := Spec(a.uid, a.argv, a.cooldown)]
                  && d.inUse == c.inUse + {p} && d.next == if p == 32768 then 1 else p + 1)
            && (a.Remove? && a.uid in c.units ==>
                  d.units == c.units - {a.uid} && d.specs == c.specs - {c.units[a.uid]})
            && ((!a.Add? || a.uid in c.units || c.NewPid().None?) && (!a.Remove? || a.uid !in c.units) ==>
                  d.units == c.units && d.specs == c.specs)
  {
    if !a.Add? && !a.Remove? {
      OthersKeepTables(s, a);
    }
  }

  lemma OthersKeepTables(s: State, a: Action)
    requires Enabled(s, a) && !a.Add? && !a.Remove?
    ensures Apply(s, a).core.units == s.core.units && Apply(s, a).core.specs == s.core.specs
  {
    match a
    case LoopTryAcquire => TryAcquireKeepsTables(s);
    case LoopLaunch(outcome) => LaunchKeepsTables(s, outcome);
    case SupExit(pid) => ExitKeepsTables(s, pid);
    case _ => OthersKeepPlans(s, a);
  }

  lemma TryAcquireKeepsTables(s: State)
    requires s.loop.Due?
    ensures TryAcquireStep(s).core.units == s.core.units && TryAcquireStep(s).core.specs == s.core.specs
  {
  }

  lemma LaunchKeepsTables(s: State, outcome: LaunchOutcome)
    requires s.loop.Launching?
    ensures LaunchStep(s, outcome).core.units == s.core.units && LaunchStep(s, outcome).core.specs == s.core.specs
  {
  }

  lemma ExitKeepsTables(s: State, pid: int)
    requires pid in s.sups
    ensures ExitStep(s, pid).core.units == s.core.units && ExitStep(s, pid).core.specs == s.core.specs
  {
  }

  // ---- Nothing before its time ----

  /** What the loop holds under the lock is due, and nothing pending precedes it. */
  ghost predicate DueNow(s: State) {
    s.loop.Due? ==> Soonest(s.core.sched, s.loop.pid) && s.core.sched[s.loop.pid] <= s.now
  }

  lemma StepKeepsDueNow(s: State, a: Action)
    requires DueNow(s) && Enabled(s, a)
    ensures DueNow(Apply(s, a))
  {
    if a.Add? || a.Remove? || a.SupExit? || a.LoopLaunch? || a.LoopTryAcquire? {
      assert !Apply(s, a).loop.Due?;
    } else {
      OthersKeepPlans(s, a);
      DueStays(s, a);
    }
  }

  lemma DueStays(s: State, a: Action)
    requires DueNow(s) && Enabled(s, a) && Apply(s, a).core.sched == s.core.sched
    requires !a.Add? && !a.Remove? && !a.SupExit? && !a.LoopLaunch? && !a.LoopTryAcquire?
    ensures DueNow(Apply(s, a))
  {
    if a.LoopLock? {
      LockMakesDue(s, a.pid);
    } else {
      SameOrAway(s, a);
    }
  }

  lemma LockMakesDue(s: State, pid: int)
    requires s.core.sched == map[] || Soonest(s.core.sched, pid)
    ensures DueNow(LockStep(s, pid))
  {
  }

  lemma SameOrAway(s: State, a: Action)
    requires Enabled(s, a) && !a.LoopLock?
    ensures Apply(s, a).loop.Due? ==> Apply(s, a).loop == s.loop && Apply(s, a).now >= s.now
  {
    if CallerAction(a) {
      CallerLeavesLoop(s, a);
    } else if SupAction(a) {
      SupLeavesLoop(s, a);
    }
  }

  lemma CallerLeavesLoop(s: State, a: Action)
    requires Enabled(s, a) && CallerAction(a)
    ensures Apply(s, a).loop == s.loop && Apply(s, a).now == s.now
  {
  }

  lemma SupLeavesLoop(s: State, a: Action)
    requires Enabled(s, a) && SupAction(a)
    ensures Apply(s, a).loop == s.loop && Apply(s, a).now == s.now
  {
  }

  lemma {:induction false} RunKeepsDueNow(l: Limits, s: State, acts: seq<Action>)
    requires DueNow(s) && Legal(l, s, acts)
    ensures DueNow(Exec(l, s, acts))
    decreases |acts|
  {
    if acts != [] {
      StepKeepsDueNow(s, acts[0]);
      RunKeepsDueNow(l, Apply(s, acts[0]), acts[1..]);
    }
  }

  /** In every run, what the loop takes off the schedule to launch it was due, and nothing else pending
      was to be launched before it. */
  lemma NeverEarly(P: int, O: int, s: State)
    requires Reachable(P, O, Any, s) && Enabled(s, LoopTryAcquire)
    ensures s.loop.pid in s.core.sched && s.core.sched[s.loop.pid] <= s.now
    ensures forall q :: q in s.core.sched ==> s.core.sched[s.loop.pid] <= s.core.sched[q]
  {
    var t0: int :| Reaches(Any, Init(P, O, t0), s);
    var acts: seq<Action> :| Legal(Any, Init(P, O, t0), acts) && s == Exec(Any, Init(P, O, t0), acts);
    RunKeepsDueNow(Any, Init(P, O, t0), acts);
  }

  /** A loop that has both gates behind it goes on to launch exactly when something is due; otherwise it
      waits, for the soonest time there is or for something to be scheduled. */
  lemma ParksIffNothingDue(s: State, pid: int)
    requires Enabled(s, LoopLock(pid))
    ensures var t := Apply(s, LoopLock(pid));
            && (t.loop.Due? <==> exists q :: q in s.core.sched && s.core.sched[q] <= s.now)
            && (t.loop.ParkedEmpty? <==> s.core.sched == map[])
            && (t.loop.Due? || t.loop.ParkedEmpty? || t.loop.ParkedUntil?)
            && (t.loop.ParkedUntil? ==> exists q :: q in s.core.sched && s.core.sched[q] == t.loop.deadline)
            && (t.loop.ParkedUntil? ==> forall q :: q in s.core.sched ==> s.now < t.loop.deadline <= s.core.sched[q])
  {
    if s.core.sched != map[] {
      assert pid in s.core.sched;
    }
  }

  // ---- Supervisors ----

  /** The phase this step brings its supervisor to. */
  function NextPhase(s: State, a: Action): (r: Phase)
    requires SupAction(a)
  {
    match a
    case SupReady(_) => if s.core.on.usage < s.core.on.maxCap then Both else Refused
    case SupReleasePre(_) => Held
    case SupEnter(_, ok) => if ok then Active else Exiting
    case _ => Exiting
  }

  /** A supervisor begins with a started process, moves by its own steps, is told what happens to its
      process, and ends with its exit; no other supervisor moves. */
  ghost predicate MovesRight(s: State, a: Action, t: State)
    requires Enabled(s, a)
  {
    if a.SupExit? then t.sups == s.sups - {a.pid}
    else if SupAction(a) then Moves(s, a.pid, NextPhase(s, a), t)
    else if a == LoopLaunch(Started) then
      && s.loop.pid in s.core.specs
      && t.sups == s.sups[s.loop.pid := Supervisor(s.core.specs[s.loop.pid].uid, Warm, false, false)]
    else if a.EnvReady? then t.sups == s.sups[a.pid := s.sups[a.pid].(ready := true)]
    else if a.EnvDone? then t.sups == s.sups[a.pid := s.sups[a.pid].(done := true)]
    else t.sups == s.sups
  }

  lemma SupervisorChanges(s: State, a: Action)
    requires Inv(s) && Enabled(s, a)
    ensures MovesRight(s, a, Apply(s, a))
  {
    if a.SupExit? {
      ExitMoves(s, a.pid);
    } else if SupAction(a) {
      SupMoves(s, a);
    } else if LoopAction(a) {
      LoopMoves(s, a);
    } else if CallerAction(a) {
      CallerMovesNobody(s, a);
    }
  }

  /** This supervisor is in this phase now, and all else is as it was. */
  predicate Moves(s: State, pid: int, ph: Phase, t: State)
    requires pid in s.sups
  {
    t.sups == s.sups[pid := s.sups[pid].(phase := ph)]
  }

  lemma ReadyMoves(s: State, pid: int)
    requires Slots(s) && InPhase(s, pid, Warm)
    ensures Moves(s, pid, if s.core.on.usage < s.core.on.maxCap then Both else Refused, ReadyStep(s, pid))
  {
  }

  lemma LeaveMoves(s: State, pid: int, ok: bool)
    requires pid in s.sups
    ensures Moves(s, pid, Held, ReleasePreStep(s, pid))
    ensures Moves(s, pid, if ok then Active else Exiting, EnterStep(s, pid, ok))
    ensures Moves(s, pid, Exiting, RefuseStep(s, pid)) && Moves(s, pid, Exiting, DoneEarlyStep(s, pid))
    ensures Moves(s, pid, Exiting, DoneStep(s, pid))
  {
  }

  lemma SupMoves(s: State, a: Action)
    requires Slots(s) && Enabled(s, a) && SupAction(a) && !a.SupExit?
    ensures Moves(s, a.pid, NextPhase(s, a), Apply(s, a))
  {
    match a
    case SupReady(pid) => ReadyMoves(s, pid);
    case SupReleasePre(pid) => LeaveMoves(s, pid, true);
    case SupEnter(pid, ok) => LeaveMoves(s, pid, ok);
    case SupRefuse(pid) => LeaveMoves(s, pid, true);
    case SupDoneEarly(pid) => LeaveMoves(s, pid, true);
    case SupDone(pid) => LeaveMoves(s, pid, true);
  }

  lemma ExitMoves(s: State, pid: int)
    requires pid in s.sups
    ensures ExitStep(s, pid).sups == s.sups - {pid}
  {
  }

  lemma LoopMoves(s: State, a: Action)
    requires Enabled(s, a) && LoopAction(a)
    ensures a == LoopLaunch(Started) ==>
              var pid := s.loop.pid;
              Apply(s, a).sups == s.sups[pid := Supervisor(s.core.SpecOf(pid).uid, Warm, false, false)]
    ensures a != LoopLaunch(Started) ==> Apply(s, a).sups == s.sups
  {
  }

  lemma CallerMovesNobody(s: State, a: Action)
    requires Enabled(s, a) && CallerAction(a)
    ensures Apply(s, a).sups == s.sups
  {
  }

  /** An onflight slot is for processes that have become ready, and so is being refused one. */
  ghost predicate PromotedWhenReady(s: State) {
    forall p :: p in s.sups && (HoldsOn(s.sups[p].phase) || s.sups[p].phase.Refused?) ==> s.sups[p].ready
  }

  lemma MovePromotesReady(s: State, a: Action)
    requires Slots(s) && PromotedWhenReady(s) && Enabled(s, a) && SupAction(a) && !a.SupExit?
    ensures PromotedWhenReady(Apply(s, a))
  {
    SupMoves(s, a);
    MovedPromotesReady(s, a.pid, NextPhase(s, a), Apply(s, a));
  }

  lemma MovedPromotesReady(s: State, pid: int, ph: Phase, t: State)
    requires PromotedWhenReady(s) && pid in s.sups && Moves(s, pid, ph, t)
    requires s.sups[pid].ready || HoldsOn(s.sups[pid].phase) || s.sups[pid].phase.Refused? || ph.Exiting?
    ensures PromotedWhenReady(t)
  {
  }

  lemma StepPromotesReady(s: State, a: Action)
    requires Inv(s) && PromotedWhenReady(s) && Enabled(s, a)
    ensures PromotedWhenReady(Apply(s, a))
  {
    if a.SupExit? {
      ExitMoves(s, a.pid);
    } else if SupAction(a) {
      MovePromotesReady(s, a);
    } else if LoopAction(a) {
      LoopMoves(s, a);
    } else if CallerAction(a) {
      CallerMovesNobody(s, a);
    }
  }

  lemma {:induction false} RunPromotesReady(l: Limits, s: State, acts: seq<Action>)
    requires Inv(s) && PromotedWhenReady(s) && Legal(l, s, acts)
    ensures PromotedWhenReady(Exec(l, s, acts))
    decreases |acts|
  {
    if acts != [] {
      StepKeepsInv(s, acts[0]);
      StepPromotesReady(s, acts[0]);
      RunPromotesReady(l, Apply(s, acts[0]), acts[1..]);
    }
  }

  /** In every run, an onflight slot is held only by a process that became ready. */
  lemma OnflightMeansReady(P: int, O: int, s: State, p: int)
    requires Reachable(P, O, Any, s) && p in s.core.on.owners
    ensures p in s.sups && s.sups[p].ready
  {
    var t0: int :| Reaches(Any, Init(P, O, t0), s);
    var acts: seq<Action> :| Legal(Any, Init(P, O, t0), acts) && s == Exec(Any, Init(P, O, t0), acts);
    InitInv(P, O, t0);
    RunPromotesReady(Any, Init(P, O, t0), acts);
    ReachableInv(P, O, Any, s);
  }

  // ---- Panics ----

  /** No PID in the whole range is free. */
  ghost predicate NoneFree(s: State) {
    forall p :: 1 <= p <= 32768 ==> p in s.core.inUse
  }

  lemma AddFaults(s: State, uid: int, argv: seq<string>, cooldown: int)
    ensures AddStep(s, uid, argv, cooldown).faults
            == s.faults + if uid !in s.core.units && NoneFree(s) then {PidsExhausted} else {}
  {
    ExhaustedIffFull(s.core.next, s.core.inUse, PID_MAX);
    assert forall p :: InRange(p, PID_MAX) <==> 1 <= p <= 32768;
  }

  lemma ListFaults(s: State, owners: seq<int>)
    ensures s.upd.ListPre? ==>
              ListPreStep(s, owners).faults == s.faults + if s.upd.maxPre < 0 then {SliceBounds} else {}
    ensures s.upd.ListOn? ==>
              ListOnStep(s, owners).faults == s.faults + if s.upd.maxOn < 0 then {SliceBounds} else {}
  {
  }

  /** The panics a step provokes: a new unit with no PID free, and slicing by a negative limit. */
  ghost function Provoked(s: State, a: Action): (r: set<Fault>) {
    match a
    case Add(uid, _, _) => if uid !in s.core.units && NoneFree(s) then {PidsExhausted} else {}
    case UpdateListPre(_) => if s.upd.ListPre? && s.upd.maxPre < 0 then {SliceBounds} else {}
    case UpdateListOn(_) => if s.upd.ListOn? && s.upd.maxOn < 0 then {SliceBounds} else {}
    case _ => {}
  }

  /** In every run, a panic is recorded exactly where a caller provokes it. */
  lemma FaultChanges(P: int, O: int, s: State, a: Action)
    requires Reachable(P, O, Any, s) && Enabled(s, a)
    ensures Apply(s, a).faults == s.faults + Provoked(s, a)
  {
    ReachableInv(P, O, Any, s);
    StepFaults(s, a);
  }

  lemma StepFaults(s: State, a: Action)
    requires Inv(s) && Enabled(s, a)
    ensures Apply(s, a).faults == s.faults + Provoked(s, a)
  {
    if CallerAction(a) {
      CallerFaults(s, a);
    } else {
      StepKeepsInv(s, a);
      SettledFaults(s, a);
    }
  }

  lemma CallerFaults(s: State, a: Action)
    requires Enabled(s, a) && CallerAction(a)
    ensures Apply(s, a).faults == s.faults + Provoked(s, a)
  {
    match a
    case Add(uid, argv, cooldown) => AddFaults(s, uid, argv, cooldown);
    case UpdateListPre(owners) => ListFaults(s, owners);
    case UpdateListOn(owners) => ListFaults(s, owners);
    case _ =>
  }

  lemma SettledFaults(s: State, a: Action)
    requires Enabled(s, a) && !CallerAction(a) && Clean(Apply(s, a))
    ensures Apply(s, a).faults == s.faults + Provoked(s, a)
  {
    if LoopAction(a) {
      LoopFaults(s, a);
    } else if SupAction(a) {
      SupFaults(s, a);
    }
  }

  lemma LoopFaults(s: State, a: Action)
    requires Enabled(s, a) && LoopAction(a) && Clean(Apply(s, a))
    ensures Apply(s, a).faults == s.faults
  {
  }

  lemma SupFaults(s: State, a: Action)
    requires Enabled(s, a) && SupAction(a) && Clean(Apply(s, a))
    ensures Apply(s, a).faults == s.faults
  {
  }
}

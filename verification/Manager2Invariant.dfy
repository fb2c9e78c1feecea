/** What every step of the second process manager keeps. */
module Manager2Invariant {
  import opened SlotPools
  import opened PidAllocation
  import opened ExecSpecs
  import opened Manager2Core
  import opened Manager2Machine

  /** A registered PID is pending, or launching under the lock, or supervised: exactly one of them. */
  ghost predicate Placed(s: State, p: int) {
    && (p in s.core.sched || p in s.sups || s.loop == Launching(p))
    && !(p in s.core.sched && p in s.sups)
    && !(p in s.core.sched && s.loop == Launching(p))
    && !(p in s.sups && s.loop == Launching(p))
  }

  ghost predicate Places(s: State) {
    && (forall p :: p in s.core.specs ==> Placed(s, p))
    && (forall p :: p in s.core.sched ==> p in s.core.specs)
    && (s.loop.Due? ==> s.loop.pid in s.core.sched)
    && (s.loop.Launching? ==> s.loop.pid in s.core.specs)
  }

  ghost predicate Pids(s: State) {
    && (forall p :: p in s.core.inUse ==> InRange(p, PID_MAX))
    && (forall p :: p in s.core.specs ==> p in s.core.inUse)
    && (forall p :: p in s.sups ==> p in s.core.inUse)
  }

  /** The slots a PID holds are a function of its supervisor's phase. */
  ghost predicate Slots(s: State) {
    && s.core.pre.Consistent() && s.core.on.Consistent()
    && (forall p :: p in s.sups ==> (HoldsPre(s.sups[p].phase) <==> p in s.core.pre.owners))
    && (forall p :: p in s.sups ==> (HoldsOn(s.sups[p].phase) <==> p in s.core.on.owners))
    && (forall p :: p in s.core.pre.owners ==> p in s.sups || s.loop == Launching(p))
    && (forall p :: p in s.core.on.owners ==> p in s.sups)
    && (s.loop.Launching? ==> s.loop.pid in s.core.pre.owners)
  }

  /** `ps` lists the supervised PIDs that are still registered; the others have been closed. */
  ghost predicate Processes(s: State) {
    && (forall p :: p in s.core.ps <==> p in s.core.specs && p in s.sups)
    && (forall p :: p in s.core.closing ==> p in s.sups)
    && (forall p :: p in s.sups && p !in s.core.specs ==> p in s.core.closing)
    && (forall p :: p in s.sups && p in s.core.specs ==> s.sups[p].uid == s.core.specs[p].uid)
  }

  ghost predicate Exclusive(s: State) {
    LoopHasLock(s) ==> s.upd.Idle?
  }

  /** Only the two panics that callers can provoke are ever recorded. */
  ghost predicate Clean(s: State) {
    forall f :: f in s.faults ==> f.PidsExhausted? || f.SliceBounds?
  }

  /** No lost wake-up: a parked loop has a token, or has nothing earlier to do. */
  ghost predicate Awake(s: State) {
    && (s.loop.ParkedEmpty? ==> s.core.sig || s.core.sched == map[])
    && (s.loop.ParkedUntil? ==> s.core.sig || forall p :: p in s.core.sched ==> s.loop.deadline <= s.core.sched[p])
  }

  ghost predicate Inv(s: State) {
    && Inverse(s.core.units, s.core.specs) && Places(s) && Pids(s) && Slots(s) && Processes(s) && Exclusive(s)
    && Clean(s) && Awake(s)
  }

  lemma InitInv(maxPre: int, maxOn: int, now: int)
    ensures Inv(Init(maxPre, maxOn, now))
  {
  }

  /** A new unit with a free PID, not yet on the schedule, keeps everything but that it is nowhere. */
  lemma IssueKeepsTables(s: State, pid: int, spec: Spec)
    requires Inv(s) && pid !in s.core.inUse && spec.uid !in s.core.units
    ensures Inverse(s.core.units[spec.uid := pid], s.core.specs[pid := spec])
    ensures pid !in s.core.specs && pid !in s.core.sched && pid !in s.core.ps && pid !in s.sups
            && s.loop != Launching(pid)
  {
  }

  /** A new unit with a free PID, to be launched at some time. */
  lemma IssueKeepsInv(s: State, pid: int, spec: Spec, at: int, next: Pid)
    requires Inv(s) && LockFree(s) && InRange(pid, PID_MAX) && pid !in s.core.inUse && spec.uid !in s.core.units
    ensures Inv(s.(core := s.core.(next := next, inUse := s.core.inUse + {pid}, units := s.core.units[spec.uid := pid],
                                   specs := s.core.specs[pid := spec], sched := s.core.sched[pid := at], sig := true)))
  {
    IssueKeepsTables(s, pid, spec);
    IssueKeepsRest(s, pid, spec, at, next);
    var t := s.(core := s.core.(next := next, inUse := s.core.inUse + {pid}, units := s.core.units[spec.uid := pid],
                                specs := s.core.specs[pid := spec], sched := s.core.sched[pid := at], sig := true));
    IssueKeepsPlaces(s, t, pid);
  }

  lemma IssueKeepsRest(s: State, pid: int, spec: Spec, at: int, next: Pid)
    requires Inv(s) && LockFree(s) && pid !in s.core.inUse
    ensures var t := s.(core := s.core.(next := next, inUse := s.core.inUse + {pid},
                                        units := s.core.units[spec.uid := pid], specs := s.core.specs[pid := spec],
                                        sched := s.core.sched[pid := at], sig := true));
            Slots(t) && Processes(t) && Exclusive(t) && Clean(t) && Awake(t)
  {
  }

  lemma IssueKeepsPlaces(s: State, t: State, pid: int)
    requires Places(s) && Pids(s) && LockFree(s) && InRange(pid, PID_MAX)
    requires pid !in s.core.sched && pid !in s.sups && t.sups == s.sups && t.loop == s.loop
    requires t.core.specs.Keys == s.core.specs.Keys + {pid} && t.core.sched.Keys == s.core.sched.Keys + {pid}
    requires t.core.inUse == s.core.inUse + {pid}
    ensures Places(t) && Pids(t)
  {
    forall p | p in t.core.specs
      ensures Placed(t, p)
    {
      assert p != pid ==> Placed(s, p);
    }
  }

  lemma AddKeepsInv(s: State, uid: int, argv: seq<string>, cooldown: int)
    requires Inv(s) && LockFree(s)
    ensures Inv(AddStep(s, uid, argv, cooldown))
  {
    if uid !in s.core.units && s.core.NewPid().Some? {
      var pid := s.core.NewPid().value;
      IssueKeepsInv(s, pid, Spec(uid, argv, cooldown), s.now, Succ(pid, PID_MAX));
    }
  }

  lemma RemoveKeepsInv(s: State, uid: int)
    requires Inv(s) && LockFree(s)
    ensures Inv(s.(core := s.core.Remove(uid)))
  {
  }

  /** Steps of UpdateLimits set limits, ask processes to close and poke the loop, and nothing else. */
  lemma UpdateFrame(s: State, t: State)
    requires Inv(s) && !LoopHasLock(s) && t.loop == s.loop && t.sups == s.sups
    requires t.core == s.core.(pre := t.core.pre, on := t.core.on, closing := t.core.closing, sig := t.core.sig)
    requires t.core.pre == s.core.pre.(maxCap := t.core.pre.maxCap)
             && t.core.on == s.core.on.(maxCap := t.core.on.maxCap)
    requires forall p :: p in s.core.closing ==> p in t.core.closing
    requires forall p :: p in t.core.closing ==> p in s.core.closing || p in s.core.ps
    requires s.core.sig ==> t.core.sig
    requires forall f :: f in t.faults ==> f in s.faults || f.SliceBounds?
    ensures Inv(t)
  {
  }

  lemma BeginKeepsInv(s: State, maxPre: int, maxOn: int)
    requires Inv(s) && LockFree(s)
    ensures Inv(BeginStep(s, maxPre, maxOn))
  {
    UpdateFrame(s, BeginStep(s, maxPre, maxOn));
  }

  lemma ListPreKeepsInv(s: State, owners: seq<int>)
    requires Inv(s) && s.upd.ListPre?
    ensures Inv(ListPreStep(s, owners))
  {
    UpdateFrame(s, ListPreStep(s, owners));
  }

  lemma ClosePreKeepsInv(s: State)
    requires Inv(s) && s.upd.ClosePre?
    ensures Inv(ClosePreStep(s))
  {
    UpdateFrame(s, ClosePreStep(s));
  }

  lemma CheckOnKeepsInv(s: State)
    requires Inv(s) && s.upd.CheckOn?
    ensures Inv(CheckOnStep(s))
  {
    UpdateFrame(s, CheckOnStep(s));
  }

  lemma ListOnKeepsInv(s: State, owners: seq<int>)
    requires Inv(s) && s.upd.ListOn?
    ensures Inv(ListOnStep(s, owners))
  {
    UpdateFrame(s, ListOnStep(s, owners));
  }

  lemma CloseOnKeepsInv(s: State)
    requires Inv(s) && s.upd.CloseOn?
    ensures Inv(CloseOnStep(s))
  {
    UpdateFrame(s, CloseOnStep(s));
  }

  lemma PassKeepsInv(s: State)
    requires Inv(s) && (s.loop.WaitPre? || s.loop.WaitOn?)
    ensures Inv(s.(loop := if s.loop.WaitPre? then WaitOn else WantLock))
  {
  }

  lemma LockKeepsInv(s: State, pid: int)
    requires Inv(s) && (s.loop.WantLock? && LockFree(s) && (s.core.sched == map[] || Soonest(s.core.sched, pid)))
    ensures Inv(LockStep(s, pid))
  {
  }

  lemma TakeKeepsInv(s: State, pid: int)
    requires Inv(s) && s.loop == Due(pid) && s.core.pre.Try(pid).Acquired?
    ensures Inv(s.(core := s.core.Take(pid), loop := Launching(pid)))
  {
    assert Placed(s, pid);
  }

  lemma TryAcquireKeepsInv(s: State)
    requires Inv(s) && s.loop.Due?
    ensures Inv(TryAcquireStep(s))
  {
    assert Placed(s, s.loop.pid);
    if s.core.pre.Try(s.loop.pid).Acquired? {
      TakeKeepsInv(s, s.loop.pid);
    }
  }

  lemma StartKeepsInv(s: State, pid: int)
    requires Inv(s) && s.loop == Launching(pid)
    ensures Inv(s.(core := s.core.(ps := s.core.ps + {pid}), loop := WaitPre,
                   sups := s.sups[pid := Supervisor(s.core.specs[pid].uid, Warm, false, false)]))
  {
    assert Placed(s, pid);
    StartKeepsSlots(s, pid, Supervisor(s.core.specs[pid].uid, Warm, false, false));
  }

  lemma StartKeepsSlots(s: State, pid: int, sup: Supervisor)
    requires Slots(s) && s.loop == Launching(pid) && pid !in s.sups && sup.phase.Warm?
    ensures Slots(s.(core := s.core.(ps := s.core.ps + {pid}), loop := WaitPre, sups := s.sups[pid := sup]))
  {
  }

  lemma RetryKeepsInv(s: State, pid: int, at: int)
    requires Inv(s) && s.loop == Launching(pid)
    ensures Inv(s.(core := s.core.(pre := s.core.pre.Release(pid), ps := s.core.ps - {pid},
                                   sched := s.core.sched[pid := at], sig := true),
                   loop := WaitPre))
  {
    assert Placed(s, pid);
  }

  lemma LaunchKeepsInv(s: State, outcome: LaunchOutcome)
    requires Inv(s) && s.loop.Launching?
    ensures Inv(LaunchStep(s, outcome))
  {
    var pid := s.loop.pid;
    assert Placed(s, pid);
    if outcome.Started? {
      StartKeepsInv(s, pid);
    } else {
      RetryKeepsInv(s, pid, s.now + s.core.specs[pid].cooldown);
      assert s.core.ps - {pid} == s.core.ps;
    }
  }

  lemma WakeKeepsInv(s: State, token: bool)
    requires Inv(s) && (s.loop.ParkedEmpty? || s.loop.ParkedUntil?)
    ensures Inv(s.(core := s.core.(sig := token), loop := WaitPre))
  {
  }

  /** A pool after a step that leaves `pid` with a slot or without one, and everybody else as they were. */
  ghost predicate Owning(p: Pool, p': Pool, pid: int, holds: bool) {
    && p'.Consistent()
    && (forall q :: q != pid ==> (q in p'.owners <==> q in p.owners))
    && (pid in p'.owners <==> holds)
  }

  /** A supervisor's step: its own phase, its own slots, perhaps a Close of its own process. */
  lemma PhaseFrame(s: State, t: State, pid: int, ph: Phase)
    requires Inv(s) && pid in s.sups && t.loop == s.loop && t.upd == s.upd && t.faults == s.faults
    requires t.sups == s.sups[pid := s.sups[pid].(phase := ph)]
    requires t.core == s.core.(pre := t.core.pre, on := t.core.on, closing := t.core.closing)
    requires Owning(s.core.pre, t.core.pre, pid, HoldsPre(ph)) && Owning(s.core.on, t.core.on, pid, HoldsOn(ph))
    requires t.core.closing == s.core.closing || t.core.closing == s.core.closing + {pid}
    ensures Inv(t)
  {
  }

  lemma ReadyKeepsInv(s: State, pid: int)
    requires Inv(s) && InPhase(s, pid, Warm)
    ensures Inv(ReadyStep(s, pid))
  {
    assert pid !in s.core.on.owners;
    PhaseFrame(s, ReadyStep(s, pid), pid, if s.core.on.Try(pid).Acquired? then Both else Refused);
  }

  lemma ReleasePreKeepsInv(s: State, pid: int)
    requires Inv(s) && InPhase(s, pid, Both)
    ensures Inv(ReleasePreStep(s, pid))
  {
    PhaseFrame(s, ReleasePreStep(s, pid), pid, Held);
  }

  lemma EnterKeepsInv(s: State, pid: int, ok: bool)
    requires Inv(s) && InPhase(s, pid, Held)
    ensures Inv(EnterStep(s, pid, ok))
  {
    PhaseFrame(s, EnterStep(s, pid, ok), pid, if ok then Active else Exiting);
  }

  lemma RefuseKeepsInv(s: State, pid: int)
    requires Inv(s) && InPhase(s, pid, Refused)
    ensures Inv(RefuseStep(s, pid))
  {
    PhaseFrame(s, RefuseStep(s, pid), pid, Exiting);
  }

  lemma DoneEarlyKeepsInv(s: State, pid: int)
    requires Inv(s) && InPhase(s, pid, Warm)
    ensures Inv(DoneEarlyStep(s, pid))
  {
    PhaseFrame(s, DoneEarlyStep(s, pid), pid, Exiting);
  }

  lemma DoneKeepsInv(s: State, pid: int)
    requires Inv(s) && InPhase(s, pid, Active)
    ensures Inv(DoneStep(s, pid))
  {
    PhaseFrame(s, DoneStep(s, pid), pid, Exiting);
  }

  lemma ExitKeepsInv(s: State, pid: int)
    requires Inv(s) && (InPhase(s, pid, Exiting) && LockFree(s))
    ensures Inv(ExitStep(s, pid))
  {
  }

  lemma EnvKeepsInv(s: State, pid: int, finished: bool)
    requires Inv(s) && (pid in s.sups)
    ensures Inv(EnvStep(s, pid, finished))
  {
  }

  lemma CallKeepsInv(s: State, a: Action)
    requires Inv(s) && Enabled(s, a)
    requires CallerAction(a)
    ensures Inv(Apply(s, a))
  {
    match a
    case Add(uid, argv, cooldown) => AddKeepsInv(s, uid, argv, cooldown);
    case Remove(uid) => RemoveKeepsInv(s, uid);
    case UpdateBegin(maxPre, maxOn) => BeginKeepsInv(s, maxPre, maxOn);
    case UpdateListPre(owners) => ListPreKeepsInv(s, owners);
    case UpdateClosePre => ClosePreKeepsInv(s);
    case UpdateCheckOn => CheckOnKeepsInv(s);
    case UpdateListOn(owners) => ListOnKeepsInv(s, owners);
    case UpdateCloseOn => CloseOnKeepsInv(s);
  }

  lemma LoopKeepsInv(s: State, a: Action)
    requires Inv(s) && Enabled(s, a)
    requires LoopAction(a)
    ensures Inv(Apply(s, a))
  {
    match a
    case LoopPassPre => PassKeepsInv(s);
    case LoopPassOn => PassKeepsInv(s);
    case LoopLock(pid) => LockKeepsInv(s, pid);
    case LoopTryAcquire => TryAcquireKeepsInv(s);
    case LoopLaunch(outcome) => LaunchKeepsInv(s, outcome);
    case LoopWakeSignal => WakeKeepsInv(s, false);
    case LoopWakeTimer => WakeKeepsInv(s, s.core.sig);
  }

  lemma SupKeepsInv(s: State, a: Action)
    requires Inv(s) && Enabled(s, a)
    requires SupAction(a)
    ensures Inv(Apply(s, a))
  {
    match a
    case SupReady(pid) => ReadyKeepsInv(s, pid);
    case SupReleasePre(pid) => ReleasePreKeepsInv(s, pid);
    case SupEnter(pid, ok) => EnterKeepsInv(s, pid, ok);
    case SupRefuse(pid) => RefuseKeepsInv(s, pid);
    case SupDoneEarly(pid) => DoneEarlyKeepsInv(s, pid);
    case SupDone(pid) => DoneKeepsInv(s, pid);
    case SupExit(pid) => ExitKeepsInv(s, pid);
  }

  lemma EnvActionKeepsInv(s: State, a: Action)
    requires Inv(s) && Enabled(s, a) && EnvAction(a)
    ensures Inv(Apply(s, a))
  {
    match a
    case EnvReady(pid) => EnvKeepsInv(s, pid, false);
    case EnvDone(pid) => EnvKeepsInv(s, pid, true);
    case Tick(dt) =>
  }

  lemma StepKeepsInv(s: State, a: Action)
    requires Inv(s) && Enabled(s, a)
    ensures Inv(Apply(s, a))
  {
    if CallerAction(a) {
      CallKeepsInv(s, a);
    } else if LoopAction(a) {
      LoopKeepsInv(s, a);
    } else if EnvAction(a) {
      EnvActionKeepsInv(s, a);
    } else {
      SupKeepsInv(s, a);
    }
  }

  lemma {:induction false} RunKeepsInv(l: Limits, s: State, acts: seq<Action>)
    requires Inv(s) && Legal(l, s, acts)
    ensures Inv(Exec(l, s, acts))
    decreases |acts|
  {
    if acts != [] {
      StepKeepsInv(s, acts[0]);
      RunKeepsInv(l, Apply(s, acts[0]), acts[1..]);
    }
  }

  /** The invariant holds in every reachable state, under any use of UpdateLimits. */
  lemma ReachableInv(maxPre: int, maxOn: int, l: Limits, s: State)
    requires Reachable(maxPre, maxOn, l, s)
    ensures Inv(s)
  {
    var t0: int :| Reaches(l, Init(maxPre, maxOn, t0), s);
    var acts: seq<Action> :| Legal(l, Init(maxPre, maxOn, t0), acts) && s == Exec(l, Init(maxPre, maxOn, t0), acts);
    InitInv(maxPre, maxOn, t0);
    RunKeepsInv(l, Init(maxPre, maxOn, t0), acts);
  }
}

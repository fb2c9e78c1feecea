/** PIDs of the second manager: who owns them, when they are reissued, and when they are lost. */
module Manager2Identity {
  import opened Wrappers
  import opened SlotPools
  import opened PidAllocation
  import opened ExecSpecs
  import opened Manager2Core
  import opened Manager2Machine
  import opened Manager2Invariant
  import opened Manager2Capacity
  import opened Manager2Witness

  /** A registered unit is pending or supervised, never both and never neither; only the loop, between
      taking a PID off the schedule and starting its supervisor, holds one that is neither. */
  lemma UnitHasOneHome(P: int, O: int, s: State, uid: int)
    requires Reachable(P, O, Any, s) && uid in s.core.units
    ensures var p := s.core.units[uid];
            s.loop != Launching(p) ==> (p in s.core.sched <==> p !in s.sups)
    ensures var p := s.core.units[uid];
            s.loop == Launching(p) ==> p !in s.core.sched && p !in s.sups
  {
    ReachableInv(P, O, Any, s);
    assert Placed(s, s.core.units[uid]);
  }

  /** What is pending, or being launched, is the current PID of a unit and has that unit's spec. */
  lemma PendingIsAuthoritative(P: int, O: int, s: State, pid: int)
    requires Reachable(P, O, Any, s)
    requires pid in s.core.sched || s.loop == Launching(pid) || s.loop == Due(pid)
    ensures pid in s.core.specs && s.core.Authoritative(pid, s.core.specs[pid].uid)
  {
    ReachableInv(P, O, Any, s);
  }

  /** No run reaches a slot-pool panic, a second supervisor for a PID, or a missing spec, and the
      slots a PID holds are determined by its supervisor's phase. */
  lemma NoProtocolFault(P: int, O: int, s: State)
    requires Reachable(P, O, Any, s)
    ensures s.faults <= {PidsExhausted, SliceBounds}
    ensures s.core.pre.usage == |s.core.pre.owners| && s.core.on.usage == |s.core.on.owners|
    ensures forall p :: p in s.sups ==>
              (p in s.core.pre.owners <==> HoldsPre(s.sups[p].phase))
              && (p in s.core.on.owners <==> HoldsOn(s.sups[p].phase))
    ensures forall p :: p in Holders(s) ==> p in s.sups || s.loop == Launching(p)
  {
    ReachableInv(P, O, Any, s);
  }

  /** While the loop is parked, a token is waiting for it or nothing is due before it wakes. */
  lemma NoLostWakeup(P: int, O: int, s: State)
    requires Reachable(P, O, Any, s) && !s.core.sig
    ensures s.loop.ParkedEmpty? ==> s.core.sched == map[]
    ensures s.loop.ParkedUntil? ==> forall p :: p in s.core.sched ==> s.loop.deadline <= s.core.sched[p]
  {
    ReachableInv(P, O, Any, s);
  }

  /** A PID handed out by Add belongs to nobody: no unit, no supervisor, no slot, no pending launch. */
  lemma AddIssuesFreshPid(P: int, O: int, s: State, uid: int, argv: seq<string>, cooldown: int)
    requires Reachable(P, O, Any, s) && LockFree(s) && uid !in s.core.units && s.core.NewPid().Some?
    ensures var c := s.core.Add(uid, argv, cooldown, s.now);
            && uid in c.units
            && (forall u :: u in s.core.units ==> s.core.units[u] != c.units[uid])
            && c.units[uid] !in s.sups && c.units[uid] !in s.core.sched && c.units[uid] !in Holders(s)
  {
    ReachableInv(P, O, Any, s);
    var p := s.core.NewPid().value;
    assert p !in s.core.inUse;
  }

  /** The exit of a supervisor whose unit was removed, or re-added under another PID, frees its PID
      and touches nothing else; the exit of a current one schedules exactly its restart. */
  lemma ExitIsConfined(P: int, O: int, s: State, pid: int)
    requires Reachable(P, O, Any, s) && Enabled(s, SupExit(pid))
    ensures var c := Apply(s, SupExit(pid)).core;
            && c.units == s.core.units && c.specs == s.core.specs && c.pre == s.core.pre && c.on == s.core.on
            && (pid !in s.core.specs ==>
                c.sched == s.core.sched && c.ps == s.core.ps && c.inUse == s.core.inUse - {pid})
            && (pid in s.core.specs ==> c.inUse == s.core.inUse && c.ps == s.core.ps - {pid})
            && (pid in s.core.specs ==> c.sched == s.core.sched[pid := s.now + s.core.specs[pid].cooldown])
  {
    ReachableInv(P, O, Any, s);
    ExitChanges(s, pid);
  }

  lemma ExitChanges(s: State, pid: int)
    requires Inv(s) && pid in s.sups
    ensures var c := ExitStep(s, pid).core;
            && c.units == s.core.units && c.specs == s.core.specs && c.pre == s.core.pre && c.on == s.core.on
            && (pid !in s.core.specs ==>
                c.sched == s.core.sched && c.ps == s.core.ps && c.inUse == s.core.inUse - {pid})
            && (pid in s.core.specs ==> c.inUse == s.core.inUse && c.ps == s.core.ps - {pid})
            && (pid in s.core.specs ==> c.sched == s.core.sched[pid := s.now + s.core.specs[pid].cooldown])
  {
    assert pid !in s.core.specs ==> s.core.ps - {pid} == s.core.ps;
    assert pid in s.core.specs ==> s.core.Authoritative(pid, s.sups[pid].uid);
  }

  // ---- PIDs that are never given back ----

  /** In use, though no unit and no supervisor has it. */
  ghost predicate Leaked(s: State, p: int) {
    p in s.core.inUse && p !in s.core.specs && p !in s.sups
  }

  /** Removing a unit loses its PID exactly when the unit was only waiting to be launched. */
  lemma RemoveLeaksIffPending(P: int, O: int, s: State, uid: int)
    requires Reachable(P, O, Any, s) && LockFree(s) && uid in s.core.units
    ensures Leaked(Apply(s, Remove(uid)), s.core.units[uid]) <==> s.core.units[uid] in s.core.sched
  {
    ReachableInv(P, O, Any, s);
    assert Placed(s, s.core.units[uid]);
  }

  /** Nobody's PID has changed hands. */
  ghost predicate SameHolders(s: State, t: State) {
    t.core.inUse == s.core.inUse && t.core.specs == s.core.specs && t.sups.Keys == s.sups.Keys
  }

  lemma ReadyKeepsHolders(s: State, pid: int)
    requires pid in s.sups
    ensures SameHolders(s, ReadyStep(s, pid))
  {
    assert SetPhase(s, pid, Refused).sups.Keys == s.sups.Keys;
  }

  lemma PhaseKeepsHolders(s: State, pid: int, ph: Phase)
    requires pid in s.sups
    ensures SameHolders(s, SetPhase(s, pid, ph))
  {
    assert SetPhase(s, pid, ph).sups.Keys == s.sups.Keys;
  }

  /** What a supervisor does between start and exit. */
  lemma SupKeepsHolders(s: State, a: Action)
    requires Enabled(s, a)
    requires SupAction(a) && !a.SupExit?
    ensures SameHolders(s, Apply(s, a))
  {
    match a
    case SupReady(pid) => ReadyKeepsHolders(s, pid);
    case SupReleasePre(pid) => PhaseKeepsHolders(s, pid, Held);
    case SupEnter(pid, ok) => PhaseKeepsHolders(s, pid, if ok then Active else Exiting);
    case SupRefuse(pid) => PhaseKeepsHolders(s, pid, Exiting);
    case SupDoneEarly(pid) => PhaseKeepsHolders(s, pid, Exiting);
    case SupDone(pid) => PhaseKeepsHolders(s, pid, Exiting);
  }

  lemma ExitKeepsLeak(s: State, pid: int, p: int)
    requires Inv(s) && pid in s.sups
    ensures Leaked(ExitStep(s, pid), p) <==> Leaked(s, p)
  {
  }

  lemma LaunchKeepsLeak(s: State, outcome: LaunchOutcome, p: int)
    requires Inv(s) && s.loop.Launching?
    ensures Leaked(LaunchStep(s, outcome), p) <==> Leaked(s, p)
  {
  }

  lemma LoopKeepsHolders(s: State, a: Action)
    requires Enabled(s, a)
    requires LoopAction(a) && !a.LoopLaunch?
    ensures SameHolders(s, Apply(s, a))
  {
  }

  lemma UpdateKeepsHolders(s: State, a: Action)
    requires Enabled(s, a)
    requires CallerAction(a) && !a.Add? && !a.Remove?
    ensures SameHolders(s, Apply(s, a))
  {
  }

  lemma EnvKeepsHolders(s: State, pid: int, finished: bool)
    requires pid in s.sups
    ensures SameHolders(s, EnvStep(s, pid, finished))
  {
    assert EnvStep(s, pid, finished).sups.Keys == s.sups.Keys;
  }

  lemma AddKeepsLeak(s: State, uid: int, argv: seq<string>, cooldown: int, p: int)
    requires Inv(s)
    ensures Leaked(AddStep(s, uid, argv, cooldown), p) <==> Leaked(s, p)
  {
  }

  lemma RemoveLeaks(s: State, uid: int, p: int)
    requires Inv(s) && LockFree(s)
    ensures Leaked(s, p) ==> Leaked(s.(core := s.core.Remove(uid)), p)
    ensures !Leaked(s, p) && Leaked(s.(core := s.core.Remove(uid)), p) ==>
              s.core.Authoritative(p, uid) && p in s.core.sched
  {
    assert uid in s.core.units ==> Placed(s, s.core.units[uid]);
  }

  /** A lost PID stays lost, and nothing but such a Remove loses one. */
  lemma LeakChanges(s: State, a: Action, p: int)
    requires Inv(s) && Enabled(s, a)
    ensures Leaked(s, p) ==> Leaked(Apply(s, a), p)
    ensures !Leaked(s, p) && Leaked(Apply(s, a), p) ==> a.Remove? && s.core.Authoritative(p, a.uid) && p in s.core.sched
  {
    if a.Add? {
      AddKeepsLeak(s, a.uid, a.argv, a.cooldown, p);
    } else if a.Remove? {
      RemoveLeaks(s, a.uid, p);
    } else {
      OthersKeepLeak(s, a, p);
    }
  }

  lemma OthersKeepLeak(s: State, a: Action, p: int)
    requires Inv(s) && Enabled(s, a) && !a.Add? && !a.Remove?
    ensures Leaked(Apply(s, a), p) <==> Leaked(s, p)
  {
    if a.LoopLaunch? {
      LaunchKeepsLeak(s, a.outcome, p);
    } else if a.SupExit? {
      ExitKeepsLeak(s, a.pid, p);
    } else {
      OthersKeepHolders(s, a);
    }
  }

  lemma OthersKeepHolders(s: State, a: Action)
    requires Enabled(s, a) && !a.Add? && !a.Remove? && !a.LoopLaunch? && !a.SupExit?
    ensures SameHolders(s, Apply(s, a))
  {
    if CallerAction(a) {
      UpdateKeepsHolders(s, a);
    } else if LoopAction(a) {
      LoopKeepsHolders(s, a);
    } else if SupAction(a) {
      SupKeepsHolders(s, a);
    } else {
      EnvActionKeepsHolders(s, a);
    }
  }

  lemma EnvActionKeepsHolders(s: State, a: Action)
    requires Enabled(s, a) && EnvAction(a)
    ensures SameHolders(s, Apply(s, a))
  {
    match a
    case EnvReady(pid) => EnvKeepsHolders(s, pid, false);
    case EnvDone(pid) => EnvKeepsHolders(s, pid, true);
    case Tick(_) =>
  }

  lemma {:induction false} LeakIsForever(l: Limits, s: State, acts: seq<Action>, p: int)
    requires Inv(s) && Legal(l, s, acts) && Leaked(s, p)
    ensures Leaked(Exec(l, s, acts), p)
    decreases |acts|
  {
    if acts != [] {
      StepKeepsInv(s, acts[0]);
      LeakChanges(s, acts[0], p);
      LeakIsForever(l, Apply(s, acts[0]), acts[1..], p);
    }
  }

  /** Every PID has been issued and nobody has one. */
  ghost predicate Barren(s: State, P: int, O: int, n: nat) {
    Issued(s, P, O, Fixed, n) && s.core.units == map[] && s.core.specs == map[] && s.sups == map[]
  }

  lemma AddThenRemove(s: State, P: int, O: int, n: nat) returns (t: State)
    requires Barren(s, P, O, n) && n < PID_MAX
    ensures Barren(t, P, O, n + 1)
  {
    var s1 := AddToBarren(s, P, O, n);
    RemovedIsBarren(s1.core, n + 1);
    t := Extend(P, O, Fixed, s1, Remove(0));
    assert t == s1.(core := s1.core.Remove(0));
  }

  lemma RemovedIsBarren(c: Core, pid: int)
    requires c.units == map[0 := pid] && c.specs.Keys == {pid} && c.sched.Keys == {pid} && pid !in c.ps
    ensures var d := c.Remove(0);
            && d.units == map[] && d.specs == map[] && d.sched == map[]
            && d.inUse == c.inUse && d.next == c.next
  {
  }

  lemma AddToBarren(s: State, P: int, O: int, n: nat) returns (t: State)
    requires Barren(s, P, O, n) && n < PID_MAX
    ensures Reachable(P, O, Fixed, t) && t.loop.WaitPre? && t.upd.Idle? && t.sups == map[]
    ensures t.core.units == map[0 := n + 1] && t.core.specs.Keys == {n + 1} && t.core.sched.Keys == {n + 1}
    ensures t.core.inUse == s.core.inUse + {n + 1} && t.core.next == Succ(n + 1, PID_MAX) && n + 1 !in t.core.ps
  {
    ReachableBounded(P, O, s);
    NextIsFree(s, P, O, Fixed, n);
    t := Extend(P, O, Fixed, s, Add(0, [], 0));
  }

  lemma {:induction false} ReachBarren(P: int, O: int, n: nat) returns (s: State)
    requires n <= PID_MAX
    ensures Barren(s, P, O, n)
    decreases n
  {
    if n == 0 {
      s := Init(P, O, 0);
      Stay(Fixed, s);
    } else {
      var a := ReachBarren(P, O, n - 1);
      s := AddThenRemove(a, P, O, n - 1);
    }
  }

  /** So a manager with no unit and no process can be unable to add any. */
  lemma IdleManagerCanBeExhausted(P: int, O: int)
    ensures exists s: State ::
              Reachable(P, O, Fixed, s) && s.core.units == map[] && s.sups == map[] && s.core.NewPid().None?
  {
    var s := ReachBarren(P, O, PID_MAX);
    ExhaustedIffFull(s.core.next, s.core.inUse, PID_MAX);
    assert forall p :: InRange(p, PID_MAX) ==> p in s.core.inUse;
    assert Reachable(P, O, Fixed, s) && s.core.units == map[] && s.sups == map[] && s.core.NewPid().None?;
  }

  // ---- What an exit waits for ----

  /** A supervisor that has given back its slots has seen its process finish or has asked it to close. */
  ghost predicate PartedProperly(s: State) {
    forall p :: p in s.sups && s.sups[p].phase.Exiting? ==> s.sups[p].done || p in s.core.closing
  }

  lemma LoopPartsProperly(s: State, a: Action)
    requires PartedProperly(s) && Enabled(s, a) && LoopAction(a)
    ensures PartedProperly(Apply(s, a))
  {
  }

  lemma SupPartsProperly(s: State, a: Action)
    requires PartedProperly(s) && Enabled(s, a) && SupAction(a)
    ensures PartedProperly(Apply(s, a))
  {
  }

  lemma StepPartsProperly(s: State, a: Action)
    requires PartedProperly(s) && Enabled(s, a)
    ensures PartedProperly(Apply(s, a))
  {
    if LoopAction(a) {
      LoopPartsProperly(s, a);
    } else if SupAction(a) {
      SupPartsProperly(s, a);
    }
  }

  lemma {:induction false} RunPartsProperly(l: Limits, s: State, acts: seq<Action>)
    requires PartedProperly(s) && Legal(l, s, acts)
    ensures PartedProperly(Exec(l, s, acts))
    decreases |acts|
  {
    if acts != [] {
      StepPartsProperly(s, acts[0]);
      RunPartsProperly(l, Apply(s, acts[0]), acts[1..]);
    }
  }

  /** Whatever the limits do, an exit that does not wait for its process comes after a Close of it: a PID is
      released, or scheduled again, only when its process is done or was asked to close. */
  lemma ExitAfterDoneOrClose(P: int, O: int, s: State, pid: int)
    requires Reachable(P, O, Any, s) && Enabled(s, SupExit(pid))
    ensures s.sups[pid].done || pid in s.core.closing
    ensures ReleasesEarly(s, pid) || RestartsEarly(s, pid) ==> pid in s.core.closing
  {
    var t0: int :| Reaches(Any, Init(P, O, t0), s);
    var acts: seq<Action> :| Legal(Any, Init(P, O, t0), acts) && s == Exec(Any, Init(P, O, t0), acts);
    RunPartsProperly(Any, Init(P, O, t0), acts);
  }

  // ---- Release before the process is gone ----

  /** This supervisor's exit can happen now and gives its PID back, although its process has not finished. */
  ghost predicate ReleasesEarly(s: State, pid: int) {
    && Enabled(s, SupExit(pid)) && !s.sups[pid].done
    && pid in s.core.inUse && pid !in Apply(s, SupExit(pid)).core.inUse
  }

  /** This supervisor's exit can happen now and schedules the next launch of its unit under the same PID,
      although its process has not finished. */
  ghost predicate RestartsEarly(s: State, pid: int) {
    && Enabled(s, SupExit(pid)) && !s.sups[pid].done
    && pid !in s.core.sched && pid in Apply(s, SupExit(pid)).core.sched
  }

  /** A current PID whose supervisor is about to exit before its process has finished. */
  ghost predicate Abandons(s: State, pid: int) {
    && LockFree(s) && InPhase(s, pid, Exiting) && !s.sups[pid].done
    && pid in s.core.specs && pid !in s.core.sched
  }

  /** One process launched. */
  lemma ReachLaunched(P: int, O: int) returns (s: State)
    requires P >= 1 && O >= 1
    ensures Reachable(P, O, Fixed, s) && LockFree(s) && InPhase(s, 1, Warm) && !s.sups[1].done
    ensures 1 in s.core.units && s.core.units[1] == 1 && s.core.on.Try(1).Acquired?
  {
    var a := ReachActive(P, O, 0);
    s := LaunchOne(a, P, O, 0, 0, 0);
    EmptyPoolAcquires(s, P, O, 1);
  }

  lemma EmptyPoolAcquires(s: State, P: int, O: int, pid: int)
    requires Reachable(P, O, Fixed, s) && |s.core.on.owners| == 0 && O >= 1
    ensures s.core.on.Try(pid).Acquired?
  {
    ReachableBounded(P, O, s);
    assert s.core.on.owners == {};
  }

  /** Its attempt to enter failed. */
  lemma ReachAbandoning(P: int, O: int) returns (s: State)
    requires P >= 1 && O >= 1
    ensures Reachable(P, O, Fixed, s) && Inv(s) && Abandons(s, 1)
  {
    var b := ReachLaunched(P, O);
    s := FailToEnter(b, P, O, 1);
    ReachableBounded(P, O, s);
    CurrentIsUnscheduled(s, 1, 1);
  }

  lemma CurrentIsUnscheduled(s: State, uid: int, pid: int)
    requires Inv(s) && uid in s.core.units && s.core.units[uid] == pid && pid in s.sups
    ensures pid in s.core.specs && pid !in s.core.sched
  {
    assert Placed(s, pid);
  }

  lemma RemovedThenReleases(s: State, pid: int)
    requires Inv(s) && Abandons(s, pid)
    ensures ReleasesEarly(Apply(s, Remove(s.core.specs[pid].uid)), pid)
  {
    var uid := s.core.specs[pid].uid;
    assert s.core.units[uid] == pid && s.sups[pid].uid == uid;
  }

  lemma AbandonedRestarts(s: State, pid: int)
    requires Inv(s) && Abandons(s, pid)
    ensures RestartsEarly(s, pid)
  {
    assert s.sups[pid].uid == s.core.specs[pid].uid;
  }

  lemma EarlyReleaseRun(P: int, O: int)
    requires P >= 1 && O >= 1
    ensures exists s: State, pid: int :: Reachable(P, O, Fixed, s) && ReleasesEarly(s, pid)
  {
    var c := ReachAbandoning(P, O);
    RemovedThenReleases(c, 1);
    var d := Extend(P, O, Fixed, c, Remove(c.core.specs[1].uid));
  }

  lemma EarlyRestartRun(P: int, O: int)
    requires P >= 1 && O >= 1
    ensures exists s: State, pid: int :: Reachable(P, O, Fixed, s) && RestartsEarly(s, pid)
  {
    var c := ReachAbandoning(P, O);
    AbandonedRestarts(c, 1);
  }

  /** The documented order, process gone first and PID released after, is kept only by a manager that
      can launch nothing at all. */
  lemma ReleaseAwaitsProcessIff(P: int, O: int)
    ensures (exists s: State, pid: int :: Reachable(P, O, Fixed, s) && ReleasesEarly(s, pid)) <==> P >= 1 && O >= 1
  {
    if P >= 1 && O >= 1 {
      EarlyReleaseRun(P, O);
    } else {
      forall s: State, pid: int | Reachable(P, O, Fixed, s)
        ensures !ReleasesEarly(s, pid)
      {
        ReachableBounded(P, O, s);
      }
    }
  }

  /** The lifecycle of the first manager, one process for a PID at a time, is kept only by a manager that
      can launch nothing: otherwise a unit is scheduled to start again while its process still runs. */
  lemma RestartAwaitsProcessIff(P: int, O: int)
    ensures (exists s: State, pid: int :: Reachable(P, O, Fixed, s) && RestartsEarly(s, pid)) <==> P >= 1 && O >= 1
  {
    if P >= 1 && O >= 1 {
      EarlyRestartRun(P, O);
    } else {
      forall s: State, pid: int | Reachable(P, O, Fixed, s)
        ensures !RestartsEarly(s, pid)
      {
        ReachableBounded(P, O, s);
      }
    }
  }

  lemma FailToEnter(s: State, P: int, O: int, pid: int) returns (t: State)
    requires Reachable(P, O, Fixed, s) && InPhase(s, pid, Warm) && s.core.on.Try(pid).Acquired?
    ensures Reachable(P, O, Fixed, t) && InPhase(t, pid, Exiting) && t.sups[pid].done == s.sups[pid].done
    ensures t.core.units == s.core.units && t.loop == s.loop && t.upd == s.upd
  {
    var s1 := Extend(P, O, Fixed, s, EnvReady(pid));
    var s2 := Extend(P, O, Fixed, s1, SupReady(pid));
    var s3 := Extend(P, O, Fixed, s2, SupReleasePre(pid));
    t := Extend(P, O, Fixed, s3, SupEnter(pid, false));
  }
}

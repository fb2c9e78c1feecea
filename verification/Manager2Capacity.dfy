/** How many slots can be held while the limits never exceed P (preflight) and O (onflight). */
module Manager2Capacity {
  import Sets
  import opened SlotPools
  import opened PidAllocation
  import opened ExecSpecs
  import opened Manager2Core
  import opened Manager2Machine
  import opened Manager2Invariant

  /** PIDs holding a slot of either kind. */
  ghost function Holders(s: State): (r: set<int>) {
    s.core.pre.owners + s.core.on.owners
  }

  predicate PastPreGate(pc: LoopPc) {
    pc.WaitOn? || pc.WantLock? || pc.Due?
  }

  predicate PastOnGate(pc: LoopPc) {
    pc.WantLock? || pc.Due?
  }

  function AtLeastZero(limit: int): (r: int) {
    if limit < 0 then 0 else limit
  }

  /** The onflight limit that an UpdateLimits in progress has yet to set. */
  predicate PendingAtMost(upd: UpdatePc, O: int) {
    upd.ListPre? || upd.ClosePre? || upd.CheckOn? ==> upd.maxOn <= O
  }

  /** What limits that never exceed P and O guarantee. */
  ghost predicate Bounded(s: State, P: int, O: int) {
    && s.core.pre.maxCap <= AtLeastZero(P) && s.core.on.maxCap <= AtLeastZero(O) && PendingAtMost(s.upd, O)
    && (PastPreGate(s.loop) ==> |s.core.pre.owners| <= P - 1)
    && (PastOnGate(s.loop) ==> O >= 1 && |Holders(s)| <= P + O - 2)
    && |s.core.pre.owners| <= AtLeastZero(P)
    && |s.core.on.owners| <= AtLeastZero(O)
    && (s.sups == map[] || (P >= 1 && O >= 1))
    && (Holders(s) == {} || (P >= 1 && O >= 1 && |Holders(s)| <= P + O - 1))
  }

  /** The limits are P and O, and nobody is about to change them. */
  predicate LimitsAre(s: State, P: int, O: int) {
    s.core.pre.maxCap == P && s.core.on.maxCap == O && s.upd.Idle?
  }

  lemma HoldersSize(s: State)
    ensures |Holders(s)| <= |s.core.pre.owners| + |s.core.on.owners|
  {
    Sets.UnionSize(s.core.pre.owners, s.core.on.owners);
    assert Holders(s) == s.core.pre.owners + s.core.on.owners;
  }

  /** Steps that give slots back, or leave them alone. */
  lemma ReleasesBounded(s: State, t: State, P: int, O: int)
    requires Bounded(s, P, O) && PendingAtMost(t.upd, O)
    requires s.sups == map[] ==> t.sups == map[] || (P >= 1 && O >= 1)
    requires t.core.pre.maxCap <= AtLeastZero(P) && t.core.pre.owners <= s.core.pre.owners
    requires t.core.on.maxCap <= AtLeastZero(O) && t.core.on.owners <= s.core.on.owners
    requires PastPreGate(t.loop) ==> PastPreGate(s.loop)
    requires PastOnGate(t.loop) ==> PastOnGate(s.loop)
    ensures Bounded(t, P, O)
  {
    Sets.SubsetSize(t.core.pre.owners, s.core.pre.owners);
    Sets.SubsetSize(t.core.on.owners, s.core.on.owners);
    Sets.SubsetSize(Holders(t), Holders(s));
  }

  lemma GateBounded(s: State, P: int, O: int)
    requires Slots(s) && Bounded(s, P, O)
    ensures s.loop.WaitPre? && s.core.pre.HasSlot() ==> Bounded(s.(loop := WaitOn), P, O)
    ensures s.loop.WaitOn? && s.core.on.HasSlot() ==> Bounded(s.(loop := WantLock), P, O)
  {
    HoldersSize(s);
    assert Holders(s.(loop := WaitOn)) == Holders(s) == Holders(s.(loop := WantLock));
  }

  lemma TryAcquireBounded(s: State, P: int, O: int)
    requires Slots(s) && Bounded(s, P, O) && s.loop.Due?
    ensures Bounded(TryAcquireStep(s), P, O)
  {
    var t := TryAcquireStep(s);
    if t.loop.Launching? {
      Sets.UnionSize(Holders(s), {s.loop.pid});
      assert Holders(t) == Holders(s) + {s.loop.pid};
    } else {
      assert Holders(t) == Holders(s);
    }
  }

  /** A promotion moves a PID that is a holder already. */
  lemma ReadyBounded(s: State, pid: int, P: int, O: int)
    requires Slots(s) && Bounded(s, P, O) && InPhase(s, pid, Warm)
    ensures Bounded(ReadyStep(s, pid), P, O)
  {
    var t := ReadyStep(s, pid);
    assert pid in s.core.pre.owners;
    assert Holders(t) == Holders(s);
  }

  lemma LockBounded(s: State, pid: int, P: int, O: int)
    requires s.loop.WantLock? && (s.core.sched == map[] || pid in s.core.sched) && Bounded(s, P, O)
    ensures Bounded(LockStep(s, pid), P, O)
  {
    ReleasesBounded(s, LockStep(s, pid), P, O);
  }

  lemma LaunchBounded(s: State, outcome: LaunchOutcome, P: int, O: int)
    requires Slots(s) && s.loop.Launching? && Bounded(s, P, O)
    ensures Bounded(LaunchStep(s, outcome), P, O)
  {
    assert s.loop.pid in Holders(s);
    ReleasesBounded(s, LaunchStep(s, outcome), P, O);
  }

  lemma ReleasePreBounded(s: State, pid: int, P: int, O: int)
    requires pid in s.sups && Bounded(s, P, O)
    ensures Bounded(ReleasePreStep(s, pid), P, O)
  {
    ReleasesBounded(s, ReleasePreStep(s, pid), P, O);
  }

  lemma EnterBounded(s: State, pid: int, ok: bool, P: int, O: int)
    requires pid in s.sups && Bounded(s, P, O)
    ensures Bounded(EnterStep(s, pid, ok), P, O)
  {
    ReleasesBounded(s, EnterStep(s, pid, ok), P, O);
  }

  lemma RefuseBounded(s: State, pid: int, P: int, O: int)
    requires pid in s.sups && Bounded(s, P, O)
    ensures Bounded(RefuseStep(s, pid), P, O)
  {
    ReleasesBounded(s, RefuseStep(s, pid), P, O);
  }

  lemma DoneEarlyBounded(s: State, pid: int, P: int, O: int)
    requires pid in s.sups && Bounded(s, P, O)
    ensures Bounded(DoneEarlyStep(s, pid), P, O)
  {
    ReleasesBounded(s, DoneEarlyStep(s, pid), P, O);
  }

  lemma DoneBounded(s: State, pid: int, P: int, O: int)
    requires pid in s.sups && Bounded(s, P, O)
    ensures Bounded(DoneStep(s, pid), P, O)
  {
    ReleasesBounded(s, DoneStep(s, pid), P, O);
  }

  lemma ExitBounded(s: State, pid: int, P: int, O: int)
    requires pid in s.sups && Bounded(s, P, O)
    ensures Bounded(ExitStep(s, pid), P, O)
  {
    ReleasesBounded(s, ExitStep(s, pid), P, O);
  }

  lemma EnvBounded(s: State, pid: int, finished: bool, P: int, O: int)
    requires pid in s.sups && Bounded(s, P, O)
    ensures Bounded(EnvStep(s, pid, finished), P, O)
  {
    ReleasesBounded(s, EnvStep(s, pid, finished), P, O);
  }

  lemma AddBounded(s: State, uid: int, argv: seq<string>, cooldown: int, P: int, O: int)
    requires LockFree(s) && Bounded(s, P, O)
    ensures Bounded(AddStep(s, uid, argv, cooldown), P, O)
  {
    ReleasesBounded(s, AddStep(s, uid, argv, cooldown), P, O);
  }

  lemma RemoveBounded(s: State, uid: int, P: int, O: int)
    requires LockFree(s) && Bounded(s, P, O)
    ensures Bounded(s.(core := s.core.Remove(uid)), P, O)
  {
    ReleasesBounded(s, s.(core := s.core.Remove(uid)), P, O);
  }

  lemma LoopBounded(s: State, a: Action, P: int, O: int)
    requires Slots(s) && Bounded(s, P, O) && Enabled(s, a) && LoopAction(a)
    ensures Bounded(Apply(s, a), P, O)
  {
    match a
    case LoopPassPre => GateBounded(s, P, O);
    case LoopPassOn => GateBounded(s, P, O);
    case LoopTryAcquire => TryAcquireBounded(s, P, O);
    case LoopLock(pid) => LockBounded(s, pid, P, O);
    case LoopLaunch(outcome) => LaunchBounded(s, outcome, P, O);
    case LoopWakeSignal => ReleasesBounded(s, s.(core := s.core.(sig := false), loop := WaitPre), P, O);
    case LoopWakeTimer => ReleasesBounded(s, s.(loop := WaitPre), P, O);
  }

  lemma SupBounded(s: State, a: Action, P: int, O: int)
    requires Slots(s) && Bounded(s, P, O) && Enabled(s, a) && SupAction(a)
    ensures Bounded(Apply(s, a), P, O)
  {
    match a
    case SupReady(pid) => ReadyBounded(s, pid, P, O);
    case SupReleasePre(pid) => ReleasePreBounded(s, pid, P, O);
    case SupEnter(pid, ok) => EnterBounded(s, pid, ok, P, O);
    case SupRefuse(pid) => RefuseBounded(s, pid, P, O);
    case SupDoneEarly(pid) => DoneEarlyBounded(s, pid, P, O);
    case SupDone(pid) => DoneBounded(s, pid, P, O);
    case SupExit(pid) => ExitBounded(s, pid, P, O);
  }

  lemma BeginBounded(s: State, maxPre: int, maxOn: int, P: int, O: int)
    requires Bounded(s, P, O) && maxPre <= P && maxOn <= O
    ensures Bounded(BeginStep(s, maxPre, maxOn), P, O)
  {
    ReleasesBounded(s, BeginStep(s, maxPre, maxOn), P, O);
  }

  lemma ListPreBounded(s: State, owners: seq<int>, P: int, O: int)
    requires Bounded(s, P, O) && s.upd.ListPre?
    ensures Bounded(ListPreStep(s, owners), P, O)
  {
    ReleasesBounded(s, ListPreStep(s, owners), P, O);
  }

  lemma ClosePreBounded(s: State, P: int, O: int)
    requires Bounded(s, P, O) && s.upd.ClosePre?
    ensures Bounded(ClosePreStep(s), P, O)
  {
    ReleasesBounded(s, ClosePreStep(s), P, O);
  }

  lemma CheckOnBounded(s: State, P: int, O: int)
    requires Bounded(s, P, O) && s.upd.CheckOn?
    ensures Bounded(CheckOnStep(s), P, O)
  {
    ReleasesBounded(s, CheckOnStep(s), P, O);
  }

  lemma ListOnBounded(s: State, owners: seq<int>, P: int, O: int)
    requires Bounded(s, P, O) && s.upd.ListOn?
    ensures Bounded(ListOnStep(s, owners), P, O)
  {
    ReleasesBounded(s, ListOnStep(s, owners), P, O);
  }

  lemma CloseOnBounded(s: State, P: int, O: int)
    requires Bounded(s, P, O) && s.upd.CloseOn?
    ensures Bounded(CloseOnStep(s), P, O)
  {
    ReleasesBounded(s, CloseOnStep(s), P, O);
  }

  lemma CallBounded(s: State, a: Action, P: int, O: int)
    requires Bounded(s, P, O) && Enabled(s, a) && Permits(AtMost(P, O), a) && CallerAction(a)
    ensures Bounded(Apply(s, a), P, O)
  {
    match a
    case Add(uid, argv, cooldown) => AddBounded(s, uid, argv, cooldown, P, O);
    case Remove(uid) => RemoveBounded(s, uid, P, O);
    case UpdateBegin(maxPre, maxOn) => BeginBounded(s, maxPre, maxOn, P, O);
    case UpdateListPre(owners) => ListPreBounded(s, owners, P, O);
    case UpdateClosePre => ClosePreBounded(s, P, O);
    case UpdateCheckOn => CheckOnBounded(s, P, O);
    case UpdateListOn(owners) => ListOnBounded(s, owners, P, O);
    case UpdateCloseOn => CloseOnBounded(s, P, O);
  }

  lemma EnvActionBounded(s: State, a: Action, P: int, O: int)
    requires Bounded(s, P, O) && Enabled(s, a) && EnvAction(a)
    ensures Bounded(Apply(s, a), P, O)
  {
    match a
    case EnvReady(pid) => EnvBounded(s, pid, false, P, O);
    case EnvDone(pid) => EnvBounded(s, pid, true, P, O);
    case Tick(dt) => ReleasesBounded(s, s.(now := s.now + dt), P, O);
  }

  lemma StepBounded(s: State, a: Action, P: int, O: int)
    requires Slots(s) && Bounded(s, P, O) && Enabled(s, a) && Permits(AtMost(P, O), a)
    ensures Bounded(Apply(s, a), P, O)
  {
    if LoopAction(a) {
      LoopBounded(s, a, P, O);
    } else if SupAction(a) {
      SupBounded(s, a, P, O);
    } else if CallerAction(a) {
      CallBounded(s, a, P, O);
    } else {
      EnvActionBounded(s, a, P, O);
    }
  }

  lemma {:induction false} RunBounded(s: State, acts: seq<Action>, P: int, O: int)
    requires Inv(s) && Bounded(s, P, O) && Legal(AtMost(P, O), s, acts)
    ensures Bounded(Exec(AtMost(P, O), s, acts), P, O)
    decreases |acts|
  {
    if acts != [] {
      StepKeepsInv(s, acts[0]);
      StepBounded(s, acts[0], P, O);
      RunBounded(Apply(s, acts[0]), acts[1..], P, O);
    }
  }

  /** The pipeline bound: while UpdateLimits never sets more than P and O, in whatever way the limits
      go up and down below that, at most P + O - 1 PIDs hold a slot, and none when P or O is not positive. */
  lemma PipelineBound(maxPre: int, maxOn: int, P: int, O: int, s: State)
    requires maxPre <= P && maxOn <= O && Reachable(maxPre, maxOn, AtMost(P, O), s)
    ensures Inv(s) && Bounded(s, P, O)
    ensures P < 1 || O < 1 ==> s.sups == map[]
    ensures P >= 1 && O >= 1 ==> |Holders(s)| <= P + O - 1
    ensures P < 1 || O < 1 ==> Holders(s) == {}
  {
    var l := AtMost(P, O);
    var t0: int :| Reaches(l, Init(maxPre, maxOn, t0), s);
    var s0 := Init(maxPre, maxOn, t0);
    var acts: seq<Action> :| Legal(l, s0, acts) && s == Exec(l, s0, acts);
    InitInv(maxPre, maxOn, t0);
    assert Holders(s0) == {};
    RunBounded(s0, acts, P, O);
    RunKeepsInv(l, s0, acts);
  }

  // ---- Fixed limits ----

  lemma TryAcquireKeepsLimits(s: State, P: int, O: int)
    requires LimitsAre(s, P, O) && s.loop.Due?
    ensures LimitsAre(TryAcquireStep(s), P, O)
  {
  }

  lemma LaunchKeepsLimits(s: State, outcome: LaunchOutcome, P: int, O: int)
    requires LimitsAre(s, P, O) && s.loop.Launching?
    ensures LimitsAre(LaunchStep(s, outcome), P, O)
  {
  }

  lemma LoopKeepsLimits(s: State, a: Action, P: int, O: int)
    requires LimitsAre(s, P, O) && Enabled(s, a) && LoopAction(a)
    ensures LimitsAre(Apply(s, a), P, O)
  {
    match a
    case LoopTryAcquire => TryAcquireKeepsLimits(s, P, O);
    case LoopLaunch(outcome) => LaunchKeepsLimits(s, outcome, P, O);
    case LoopLock(pid) => assert LockStep(s, pid).core == s.core;
    case _ =>
  }

  lemma ReadyKeepsLimits(s: State, pid: int, P: int, O: int)
    requires LimitsAre(s, P, O) && pid in s.sups
    ensures LimitsAre(ReadyStep(s, pid), P, O)
  {
  }

  lemma LeaveKeepsLimits(s: State, pid: int, ok: bool, P: int, O: int)
    requires LimitsAre(s, P, O) && pid in s.sups
    ensures LimitsAre(EnterStep(s, pid, ok), P, O) && LimitsAre(ReleasePreStep(s, pid), P, O)
    ensures LimitsAre(RefuseStep(s, pid), P, O) && LimitsAre(DoneEarlyStep(s, pid), P, O)
    ensures LimitsAre(DoneStep(s, pid), P, O)
  {
  }

  lemma SupKeepsLimits(s: State, a: Action, P: int, O: int)
    requires LimitsAre(s, P, O) && Enabled(s, a) && SupAction(a)
    ensures LimitsAre(Apply(s, a), P, O)
  {
    match a
    case SupReady(pid) => ReadyKeepsLimits(s, pid, P, O);
    case SupExit(pid) => assert ExitStep(s, pid).core.pre == s.core.pre && ExitStep(s, pid).core.on == s.core.on;
    case SupEnter(pid, ok) => LeaveKeepsLimits(s, pid, ok, P, O);
    case SupReleasePre(pid) => LeaveKeepsLimits(s, pid, true, P, O);
    case SupRefuse(pid) => LeaveKeepsLimits(s, pid, true, P, O);
    case SupDoneEarly(pid) => LeaveKeepsLimits(s, pid, true, P, O);
    case SupDone(pid) => LeaveKeepsLimits(s, pid, true, P, O);
  }

  lemma StepKeepsLimits(s: State, a: Action, P: int, O: int)
    requires LimitsAre(s, P, O) && Enabled(s, a) && Permits(Fixed, a)
    ensures LimitsAre(Apply(s, a), P, O)
  {
    if LoopAction(a) {
      LoopKeepsLimits(s, a, P, O);
    } else if SupAction(a) {
      SupKeepsLimits(s, a, P, O);
    } else if a.Add? {
      assert AddStep(s, a.uid, a.argv, a.cooldown).core.pre == s.core.pre;
    }
  }

  /** A run with fixed limits is a run with limits that are never exceeded, and leaves them as they are. */
  lemma {:induction false} FixedRun(s: State, acts: seq<Action>, P: int, O: int)
    requires LimitsAre(s, P, O) && Legal(Fixed, s, acts)
    ensures Legal(AtMost(P, O), s, acts) && Exec(AtMost(P, O), s, acts) == Exec(Fixed, s, acts)
    ensures LimitsAre(Exec(Fixed, s, acts), P, O)
    decreases |acts|
  {
    if acts != [] {
      StepKeepsLimits(s, acts[0], P, O);
      FixedRun(Apply(s, acts[0]), acts[1..], P, O);
    }
  }

  lemma ReachableBounded(P: int, O: int, s: State)
    requires Reachable(P, O, Fixed, s)
    ensures Inv(s) && Bounded(s, P, O) && LimitsAre(s, P, O)
  {
    var t0: int :| Reaches(Fixed, Init(P, O, t0), s);
    var s0 := Init(P, O, t0);
    var acts: seq<Action> :| Legal(Fixed, s0, acts) && s == Exec(Fixed, s0, acts);
    FixedRun(s0, acts, P, O);
    assert Reaches(AtMost(P, O), s0, s);
    PipelineBound(P, O, P, O, s);
  }

  /** With fixed limits the loop's own tryAcquire always succeeds. */
  lemma LoopAlwaysAcquires(P: int, O: int, s: State)
    requires Reachable(P, O, Fixed, s) && s.loop.Due?
    ensures s.core.pre.Try(s.loop.pid).Acquired?
  {
    ReachableBounded(P, O, s);
    assert Placed(s, s.loop.pid);
  }
}

/** UpdateLimits restores the limits: whenever no call of it is in progress, at most `maxCap` owners
    of each pool have not been asked to Close. */
module Manager2Closing {
  import Sets
  import opened SlotPools
  import opened ExecSpecs
  import opened Manager2Core
  import opened Manager2Machine
  import opened Manager2Invariant

  /** The owners that are neither closed nor about to be closed by the pending list. */
  ghost function Unclosed(owners: set<int>, closing: set<int>, todo: seq<int>): (r: set<int>) {
    set p | p in owners && p !in closing && p !in todo
  }

  ghost function Ceiling(pool: Pool): (r: int) {
    if pool.maxCap < 0 then 0 else pool.maxCap
  }

  ghost function TodoPre(s: State): (r: seq<int>) {
    if s.upd.ClosePre? then s.upd.todo else []
  }

  ghost function TodoOn(s: State): (r: seq<int>) {
    if s.upd.CloseOn? then s.upd.todo else []
  }

  ghost predicate Within(pool: Pool, closing: set<int>, todo: seq<int>) {
    |Unclosed(pool.owners, closing, todo)| <= Ceiling(pool)
  }

  ghost predicate Accounted(s: State) {
    && (s.upd.ListPre? ==> s.core.pre.maxCap == s.upd.maxPre >= 0 && s.upd.maxOn >= 0)
    && (s.upd.ClosePre? ==> s.upd.maxOn >= 0)
    && (s.upd.CheckOn? ==> s.upd.maxOn >= 0)
    && (s.upd.ListOn? ==> s.core.on.maxCap == s.upd.maxOn >= 0)
    && (!s.upd.ListPre? ==> Within(s.core.pre, s.core.closing, TodoPre(s)))
    && (!s.upd.ListOn? ==> Within(s.core.on, s.core.closing, TodoOn(s)))
    && Fault.SliceBounds !in s.faults
  }

  /** Fewer owners, or more of them closed, keeps the bound. */
  lemma Shrinks(p: Pool, closing: set<int>, todo: seq<int>, p': Pool, closing': set<int>, todo': seq<int>)
    requires Within(p, closing, todo) && Ceiling(p') >= Ceiling(p)
    requires forall x :: x in p'.owners && x !in closing' && x !in todo' ==>
               x in p.owners && x !in closing && x !in todo
    ensures Within(p', closing', todo')
  {
    forall x | x in Unclosed(p'.owners, closing', todo')
      ensures x in Unclosed(p.owners, closing, todo)
    {
      assert x !in closing' && x !in todo';
    }
    Sets.SubsetSize(Unclosed(p'.owners, closing', todo'), Unclosed(p.owners, closing, todo));
  }

  /** An acquisition happens only below the limit, so all owners together are within it. */
  lemma FewOwners(p: Pool, closing: set<int>, todo: seq<int>)
    requires p.Consistent() && p.usage <= p.maxCap
    ensures Within(p, closing, todo)
  {
    Sets.SubsetSize(Unclosed(p.owners, closing, todo), p.owners);
  }

  /** The first |owners| - maxCap owners listed leave exactly maxCap others. */
  lemma ListedExcess(p: Pool, closing: set<int>, order: seq<int>, excess: int)
    requires Lists(order, p.owners) && 0 <= excess <= |order| && |order| - excess <= Ceiling(p)
    ensures Within(p, closing, order[..excess])
  {
    Sets.ElemsSize(order[excess..]);
    assert order == order[..excess] + order[excess..];
    forall x | x in Unclosed(p.owners, closing, order[..excess])
      ensures x in order[excess..]
    {
      assert x in order && x !in order[..excess];
    }
    Sets.SubsetSize(Unclosed(p.owners, closing, order[..excess]), Sets.Elems(order[excess..]));
  }

  lemma AddRemoveAccounted(s: State, t: State)
    requires Accounted(s) && LockFree(s)
    requires t.core.pre == s.core.pre && t.core.on == s.core.on && s.core.closing <= t.core.closing
    requires t.upd == s.upd && (Fault.SliceBounds in t.faults ==> Fault.SliceBounds in s.faults)
    ensures Accounted(t)
  {
    Shrinks(s.core.pre, s.core.closing, [], t.core.pre, t.core.closing, []);
    Shrinks(s.core.on, s.core.closing, [], t.core.on, t.core.closing, []);
  }

  lemma BeginAccounted(s: State, maxPre: int, maxOn: int)
    requires Accounted(s) && LockFree(s) && maxPre >= 0 && maxOn >= 0
    ensures Accounted(BeginStep(s, maxPre, maxOn))
  {
  }

  lemma ListPreAccounted(s: State, owners: seq<int>)
    requires Slots(s) && Accounted(s) && s.upd.ListPre? && Lists(owners, s.core.pre.owners)
    ensures Accounted(ListPreStep(s, owners))
  {
    var excess := |owners| - s.upd.maxPre;
    if excess <= 0 {
      FewOwners(s.core.pre, s.core.closing, []);
    } else {
      ListedExcess(s.core.pre, s.core.closing, owners, excess);
    }
  }

  lemma ListOnAccounted(s: State, owners: seq<int>)
    requires Slots(s) && Accounted(s) && s.upd.ListOn? && Lists(owners, s.core.on.owners)
    ensures Accounted(ListOnStep(s, owners))
  {
    var excess := |owners| - s.upd.maxOn;
    if excess <= 0 {
      FewOwners(s.core.on, s.core.closing, []);
    } else {
      ListedExcess(s.core.on, s.core.closing, owners, excess);
    }
  }

  lemma CheckOnAccounted(s: State)
    requires Slots(s) && Accounted(s) && s.upd.CheckOn?
    ensures Accounted(CheckOnStep(s))
  {
  }

  /** Closing the head of the list: an owner without a process entry was closed before. */
  lemma CloseAccounted(s: State, c: Core, todo: seq<int>, pool: Pool)
    requires Processes(s) && |todo| > 0 && c == s.core.Close(todo[0])
    requires forall x :: x in pool.owners ==> x in s.sups
    requires Within(pool, s.core.closing, todo)
    ensures Within(pool, c.closing, todo[1..])
  {
    forall x | x in pool.owners && x !in c.closing && x !in todo[1..]
      ensures x !in todo
    {
      assert todo == [todo[0]] + todo[1..];
    }
    Shrinks(pool, s.core.closing, todo, pool, c.closing, todo[1..]);
  }

  lemma ClosePreAccounted(s: State)
    requires Processes(s) && Slots(s) && Exclusive(s) && Accounted(s) && s.upd.ClosePre?
    ensures Accounted(ClosePreStep(s))
  {
    if s.upd.todo != [] {
      var c := s.core.Close(s.upd.todo[0]);
      CloseAccounted(s, c, s.upd.todo, s.core.pre);
      Shrinks(s.core.on, s.core.closing, [], s.core.on, c.closing, []);
    }
  }

  lemma CloseOnAccounted(s: State)
    requires Processes(s) && Slots(s) && Exclusive(s) && Accounted(s) && s.upd.CloseOn?
    ensures Accounted(CloseOnStep(s))
  {
    if s.upd.todo != [] {
      var c := s.core.Close(s.upd.todo[0]);
      CloseAccounted(s, c, s.upd.todo, s.core.on);
      Shrinks(s.core.pre, s.core.closing, [], s.core.pre, c.closing, []);
    }
  }

  /** A supervisor's step: slots only given back, processes only closed. */
  lemma ReleasesAccounted(s: State, t: State)
    requires Accounted(s) && t.upd == s.upd && (Fault.SliceBounds in t.faults ==> Fault.SliceBounds in s.faults)
    requires t.core.pre.maxCap == s.core.pre.maxCap && t.core.pre.owners <= s.core.pre.owners
    requires t.core.on.maxCap == s.core.on.maxCap && t.core.on.owners <= s.core.on.owners
    requires forall x :: x in s.core.closing && x !in t.core.closing ==>
               x !in t.core.pre.owners && x !in t.core.on.owners
    ensures Accounted(t)
  {
    if !s.upd.ListPre? {
      Shrinks(s.core.pre, s.core.closing, TodoPre(s), t.core.pre, t.core.closing, TodoPre(t));
    }
    if !s.upd.ListOn? {
      Shrinks(s.core.on, s.core.closing, TodoOn(s), t.core.on, t.core.closing, TodoOn(t));
    }
  }

  lemma TryAcquireAccounted(s: State)
    requires Slots(s) && Exclusive(s) && Accounted(s) && s.loop.Due?
    ensures Accounted(TryAcquireStep(s))
  {
    var t := TryAcquireStep(s);
    if t.loop.Launching? {
      FewOwners(t.core.pre, t.core.closing, []);
    }
  }

  lemma ReadyAccounted(s: State, pid: int)
    requires Slots(s) && Accounted(s) && InPhase(s, pid, Warm)
    ensures Accounted(ReadyStep(s, pid))
  {
    var t := ReadyStep(s, pid);
    if s.core.on.Try(pid).Acquired? {
      FewOwners(t.core.on, t.core.closing, TodoOn(t));
    }
  }

  lemma LockAccounted(s: State, pid: int)
    requires (s.core.sched == map[] || pid in s.core.sched) && Accounted(s)
    ensures Accounted(LockStep(s, pid))
  {
    ReleasesAccounted(s, LockStep(s, pid));
  }

  lemma LaunchAccounted(s: State, outcome: LaunchOutcome)
    requires s.loop.Launching? && Accounted(s)
    ensures Accounted(LaunchStep(s, outcome))
  {
    ReleasesAccounted(s, LaunchStep(s, outcome));
  }

  lemma ReleasePreAccounted(s: State, pid: int)
    requires pid in s.sups && Accounted(s)
    ensures Accounted(ReleasePreStep(s, pid))
  {
    ReleasesAccounted(s, ReleasePreStep(s, pid));
  }

  lemma EnterAccounted(s: State, pid: int, ok: bool)
    requires pid in s.sups && Accounted(s)
    ensures Accounted(EnterStep(s, pid, ok))
  {
    ReleasesAccounted(s, EnterStep(s, pid, ok));
  }

  lemma RefuseAccounted(s: State, pid: int)
    requires pid in s.sups && Accounted(s)
    ensures Accounted(RefuseStep(s, pid))
  {
    ReleasesAccounted(s, RefuseStep(s, pid));
  }

  lemma DoneEarlyAccounted(s: State, pid: int)
    requires pid in s.sups && Accounted(s)
    ensures Accounted(DoneEarlyStep(s, pid))
  {
    ReleasesAccounted(s, DoneEarlyStep(s, pid));
  }

  lemma DoneAccounted(s: State, pid: int)
    requires pid in s.sups && Accounted(s)
    ensures Accounted(DoneStep(s, pid))
  {
    ReleasesAccounted(s, DoneStep(s, pid));
  }

  lemma ExitAccounted(s: State, pid: int)
    requires Slots(s) && InPhase(s, pid, Exiting) && Accounted(s)
    ensures Accounted(ExitStep(s, pid))
  {
    ReleasesAccounted(s, ExitStep(s, pid));
  }

  lemma EnvAccounted(s: State, pid: int, finished: bool)
    requires pid in s.sups && Accounted(s)
    ensures Accounted(EnvStep(s, pid, finished))
  {
    ReleasesAccounted(s, EnvStep(s, pid, finished));
  }

  lemma LoopAccounted(s: State, a: Action)
    requires Inv(s) && Accounted(s) && Enabled(s, a) && LoopAction(a)
    ensures Accounted(Apply(s, a))
  {
    match a
    case LoopTryAcquire => TryAcquireAccounted(s);
    case LoopLock(pid) => LockAccounted(s, pid);
    case LoopLaunch(outcome) => LaunchAccounted(s, outcome);
    case _ => TokenAccounted(s, a);
  }

  lemma TokenAccounted(s: State, a: Action)
    requires Accounted(s) && Enabled(s, a)
    requires a.LoopPassPre? || a.LoopPassOn? || a.LoopWakeSignal? || a.LoopWakeTimer?
    ensures Accounted(Apply(s, a))
  {
    ReleasesAccounted(s, Apply(s, a));
  }

  lemma SupAccounted(s: State, a: Action)
    requires Inv(s) && Accounted(s) && Enabled(s, a) && SupAction(a)
    ensures Accounted(Apply(s, a))
  {
    match a
    case SupReady(pid) => ReadyAccounted(s, pid);
    case SupReleasePre(pid) => ReleasePreAccounted(s, pid);
    case SupEnter(pid, ok) => EnterAccounted(s, pid, ok);
    case SupRefuse(pid) => RefuseAccounted(s, pid);
    case SupDoneEarly(pid) => DoneEarlyAccounted(s, pid);
    case SupDone(pid) => DoneAccounted(s, pid);
    case SupExit(pid) => ExitAccounted(s, pid);
  }

  lemma CallAccounted(s: State, a: Action)
    requires Inv(s) && Accounted(s) && Enabled(s, a) && Permits(NonNegative, a) && CallerAction(a)
    ensures Accounted(Apply(s, a))
  {
    match a
    case Add(uid, argv, cooldown) => AddRemoveAccounted(s, AddStep(s, uid, argv, cooldown));
    case Remove(uid) => AddRemoveAccounted(s, s.(core := s.core.Remove(uid)));
    case UpdateBegin(maxPre, maxOn) => BeginAccounted(s, maxPre, maxOn);
    case UpdateListPre(owners) => ListPreAccounted(s, owners);
    case UpdateClosePre => ClosePreAccounted(s);
    case UpdateCheckOn => CheckOnAccounted(s);
    case UpdateListOn(owners) => ListOnAccounted(s, owners);
    case UpdateCloseOn => CloseOnAccounted(s);
  }

  lemma EnvActionAccounted(s: State, a: Action)
    requires Accounted(s) && Enabled(s, a) && EnvAction(a)
    ensures Accounted(Apply(s, a))
  {
    match a
    case EnvReady(pid) => EnvAccounted(s, pid, false);
    case EnvDone(pid) => EnvAccounted(s, pid, true);
    case Tick(dt) =>
  }

  lemma StepAccounted(s: State, a: Action)
    requires Inv(s) && Accounted(s) && Enabled(s, a) && Permits(NonNegative, a)
    ensures Accounted(Apply(s, a))
  {
    if CallerAction(a) {
      CallAccounted(s, a);
    } else if LoopAction(a) {
      LoopAccounted(s, a);
    } else if SupAction(a) {
      SupAccounted(s, a);
    } else {
      EnvActionAccounted(s, a);
    }
  }

  lemma {:induction false} RunAccounted(s: State, acts: seq<Action>)
    requires Inv(s) && Accounted(s) && Legal(NonNegative, s, acts)
    ensures Accounted(Exec(NonNegative, s, acts))
    decreases |acts|
  {
    if acts != [] {
      StepKeepsInv(s, acts[0]);
      StepAccounted(s, acts[0]);
      RunAccounted(Apply(s, acts[0]), acts[1..]);
    }
  }

  /** Owners of a pool that have not been asked to Close. */
  ghost function Open(pool: Pool, closing: set<int>): (r: set<int>) {
    set p | p in pool.owners && p !in closing
  }

  /** Through any raises and cuts, removals, promotions and exits, a manager that is not inside
      UpdateLimits has asked all but `maxCap` owners of each pool to Close. */
  lemma LimitsRestored(maxPre: int, maxOn: int, s: State)
    requires Reachable(maxPre, maxOn, NonNegative, s) && s.upd.Idle?
    ensures |Open(s.core.pre, s.core.closing)| <= Ceiling(s.core.pre)
    ensures |Open(s.core.on, s.core.closing)| <= Ceiling(s.core.on)
  {
    var t0: int :| Reaches(NonNegative, Init(maxPre, maxOn, t0), s);
    var s0 := Init(maxPre, maxOn, t0);
    var acts: seq<Action> :| Legal(NonNegative, s0, acts) && s == Exec(NonNegative, s0, acts);
    InitInv(maxPre, maxOn, t0);
    assert Unclosed({}, {}, []) == {};
    RunAccounted(s0, acts);
    assert Unclosed(s.core.pre.owners, s.core.closing, []) == Open(s.core.pre, s.core.closing);
    assert Unclosed(s.core.on.owners, s.core.closing, []) == Open(s.core.on, s.core.closing);
  }
}

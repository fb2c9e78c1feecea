/** The second process manager as a state machine: the scheduling loop, the callers of Add, Remove
    and UpdateLimits, and one supervisor goroutine for each launched process, interleaved at every
    point where the source releases a lock or uses a slot pool.

    A step that would panic, start a second supervisor for a PID, or read a spec that is not there
    records a fault instead; Manager2Invariant proves which faults cannot happen. */
module Manager2Machine {
  import opened Wrappers
  import opened SlotPools
  import opened ExecSpecs
  import opened Manager2Core

  datatype Phase =
    | Warm      // started, waiting for Ready; holds a preflight slot
    | Refused   // Ready, but no onflight slot was free; holds a preflight slot
    | Both      // Ready, holds both slots
    | Held      // preflight slot returned, about to Enter; holds an onflight slot
    | Active    // entered, waiting for Done; holds an onflight slot
    | Exiting   // slots returned, exit handler still to run

  predicate HoldsPre(ph: Phase) {
    ph.Warm? || ph.Refused? || ph.Both?
  }

  predicate HoldsOn(ph: Phase) {
    ph.Both? || ph.Held? || ph.Active?
  }

  datatype Supervisor = Supervisor(uid: int, phase: Phase, ready: bool, done: bool)

  datatype LoopPc =
    | WaitPre | WaitOn | WantLock
    | Due(pid: int) | Launching(pid: int)       // holding the manager's lock
    | ParkedEmpty | ParkedUntil(deadline: int)

  datatype UpdatePc =
    | Idle
    | ListPre(maxPre: int, maxOn: int) | ClosePre(todo: seq<int>, maxOn: int)
    | CheckOn(maxOn: int) | ListOn(maxOn: int) | CloseOn(todo: seq<int>)

  datatype Fault = DoubleAcquire | NonOwnerRelease | PidsExhausted | SliceBounds | SecondSupervisor | MissingSpec

  datatype State = State(
    core: Core,
    loop: LoopPc,
    upd: UpdatePc,
    sups: map<int, Supervisor>,
    now: int,
    faults: set<Fault>)

  datatype Action =
    | Add(uid: int, argv: seq<string>, cooldown: int)
    | Remove(uid: int)
    | UpdateBegin(maxPre: int, maxOn: int)
    | UpdateListPre(owners: seq<int>) | UpdateClosePre
    | UpdateCheckOn | UpdateListOn(owners: seq<int>) | UpdateCloseOn
    | LoopPassPre | LoopPassOn | LoopLock(pid: int) | LoopTryAcquire | LoopLaunch(outcome: LaunchOutcome)
    | LoopWakeSignal | LoopWakeTimer
    | SupReady(pid: int) | SupReleasePre(pid: int) | SupEnter(pid: int, ok: bool)
    | SupRefuse(pid: int) | SupDoneEarly(pid: int) | SupDone(pid: int) | SupExit(pid: int)
    | EnvReady(pid: int) | EnvDone(pid: int) | Tick(dt: nat)

  /** Steps of Add, Remove and UpdateLimits. */
  predicate CallerAction(a: Action) {
    || a.Add? || a.Remove? || a.UpdateBegin? || a.UpdateListPre? || a.UpdateClosePre?
    || a.UpdateCheckOn? || a.UpdateListOn? || a.UpdateCloseOn?
  }

  predicate LoopAction(a: Action) {
    || a.LoopPassPre? || a.LoopPassOn? || a.LoopLock? || a.LoopTryAcquire? || a.LoopLaunch?
    || a.LoopWakeSignal? || a.LoopWakeTimer?
  }

  predicate SupAction(a: Action) {
    || a.SupReady? || a.SupReleasePre? || a.SupEnter? || a.SupRefuse?
    || a.SupDoneEarly? || a.SupDone? || a.SupExit?
  }

  predicate EnvAction(a: Action) {
    a.EnvReady? || a.EnvDone? || a.Tick?
  }

  predicate LoopHasLock(s: State) {
    s.loop.Due? || s.loop.Launching?
  }

  predicate LockFree(s: State) {
    !LoopHasLock(s) && s.upd.Idle?
  }

  predicate InPhase(s: State, pid: int, ph: Phase) {
    pid in s.sups && s.sups[pid].phase == ph
  }

  function Init(maxPre: int, maxOn: int, now: int): (r: State) {
    State(Core(map[], map[], {}, {}, 1, {}, Pool(maxPre, 0, {}), Pool(maxOn, 0, {}), map[], false),
          WaitPre, Idle, map[], now, {})
  }

  ghost predicate Enabled(s: State, a: Action) {
    match a
    case Add(_, _, _) => LockFree(s)
    case Remove(_) => LockFree(s)
    case UpdateBegin(_, _) => LockFree(s)
    case UpdateListPre(owners) => s.upd.ListPre? && Lists(owners, s.core.pre.owners)
    case UpdateClosePre => s.upd.ClosePre?
    case UpdateCheckOn => s.upd.CheckOn?
    case UpdateListOn(owners) => s.upd.ListOn? && Lists(owners, s.core.on.owners)
    case UpdateCloseOn => s.upd.CloseOn?
    case LoopPassPre => s.loop.WaitPre? && s.core.pre.HasSlot()
    case LoopPassOn => s.loop.WaitOn? && s.core.on.HasSlot()
    case LoopLock(pid) => s.loop.WantLock? && LockFree(s) && (s.core.sched == map[] || Soonest(s.core.sched, pid))
    case LoopTryAcquire => s.loop.Due?
    case LoopLaunch(_) => s.loop.Launching?
    case LoopWakeSignal => (s.loop.ParkedEmpty? || s.loop.ParkedUntil?) && s.core.sig
    case LoopWakeTimer => s.loop.ParkedUntil? && s.loop.deadline <= s.now
    case SupReady(pid) => InPhase(s, pid, Warm) && s.sups[pid].ready
    case SupReleasePre(pid) => InPhase(s, pid, Both)
    case SupEnter(pid, _) => InPhase(s, pid, Held)
    case SupRefuse(pid) => InPhase(s, pid, Refused)
    case SupDoneEarly(pid) => InPhase(s, pid, Warm) && s.sups[pid].done
    case SupDone(pid) => InPhase(s, pid, Active) && s.sups[pid].done
    case SupExit(pid) => InPhase(s, pid, Exiting) && LockFree(s)
    case EnvReady(pid) => pid in s.sups
    case EnvDone(pid) => pid in s.sups
    case Tick(_) => true
  }

  function Blame(s: State, bad: bool, f: Fault): (r: State) {
    if bad then s.(faults := s.faults + {f}) else s
  }

  function SetPhase(s: State, pid: int, ph: Phase): (r: State)
    requires pid in s.sups
  {
    s.(sups := s.sups[pid := s.sups[pid].(phase := ph)])
  }

  function ReleasePre(s: State, pid: int): (r: State) {
    Blame(s.(core := s.core.(pre := s.core.pre.Release(pid))), pid !in s.core.pre.owners, NonOwnerRelease)
  }

  function ReleaseOn(s: State, pid: int): (r: State) {
    Blame(s.(core := s.core.(on := s.core.on.Release(pid))), pid !in s.core.on.owners, NonOwnerRelease)
  }

  /** The supervisor's own proc.Close(): it holds the process, so the table is not consulted. */
  function CloseOwn(s: State, pid: int): (r: State) {
    s.(core := s.core.(closing := s.core.closing + {pid}))
  }

  /** UpdateLimits returns: poke the loop, give up the lock. */
  function FinishUpdate(s: State): (r: State) {
    s.(core := s.core.(sig := true), upd := Idle)
  }

  // ---- Add ----

  function AddStep(s: State, uid: int, argv: seq<string>, cooldown: int): (r: State) {
    Blame(s.(core := s.core.Add(uid, argv, cooldown, s.now)),
          uid !in s.core.units && s.core.NewPid().None?, PidsExhausted)
  }

  // ---- UpdateLimits ----

  function BeginStep(s: State, maxPre: int, maxOn: int): (r: State) {
    if s.core.pre.maxCap != maxPre
    then s.(core := s.core.(pre := s.core.pre.WithLimit(maxPre)), upd := ListPre(maxPre, maxOn))
    else s.(upd := CheckOn(maxOn))
  }

  function ListPreStep(s: State, owners: seq<int>): (r: State)
    requires s.upd.ListPre?
  {
    var excess := |owners| - s.upd.maxPre;
    if excess <= 0 then s.(upd := CheckOn(s.upd.maxOn))
    else if excess > |owners| then Blame(s.(upd := Idle), true, SliceBounds)
    else s.(upd := ClosePre(owners[..excess], s.upd.maxOn))
  }

  function ClosePreStep(s: State): (r: State)
    requires s.upd.ClosePre?
  {
    if s.upd.todo == [] then s.(upd := CheckOn(s.upd.maxOn))
    else s.(core := s.core.Close(s.upd.todo[0]), upd := ClosePre(s.upd.todo[1..], s.upd.maxOn))
  }

  function CheckOnStep(s: State): (r: State)
    requires s.upd.CheckOn?
  {
    if s.core.on.maxCap != s.upd.maxOn
    then s.(core := s.core.(on := s.core.on.WithLimit(s.upd.maxOn)), upd := ListOn(s.upd.maxOn))
    else FinishUpdate(s)
  }

  function ListOnStep(s: State, owners: seq<int>): (r: State)
    requires s.upd.ListOn?
  {
    var excess := |owners| - s.upd.maxOn;
    if excess <= 0 then FinishUpdate(s)
    else if excess > |owners| then Blame(s.(upd := Idle), true, SliceBounds)
    else s.(upd := CloseOn(owners[..excess]))
  }

  function CloseOnStep(s: State): (r: State)
    requires s.upd.CloseOn?
  {
    if s.upd.todo == [] then FinishUpdate(s)
    else s.(core := s.core.Close(s.upd.todo[0]), upd := CloseOn(s.upd.todo[1..]))
  }

  // ---- mainloop ----

  function LockStep(s: State, pid: int): (r: State)
    requires s.core.sched == map[] || pid in s.core.sched
  {
    if s.core.sched == map[] then s.(loop := ParkedEmpty)
    else if s.core.sched[pid] > s.now then s.(loop := ParkedUntil(s.core.sched[pid]))
    else s.(loop := Due(pid))
  }

  function TryAcquireStep(s: State): (r: State)
    requires s.loop.Due?
  {
    var pid := s.loop.pid;
    var c := s.core;
    match c.pre.Try(pid)
    case DoubleAcquire => Blame(s.(loop := WaitPre), true, Fault.DoubleAcquire)
    case Full => s.(loop := WaitPre)
    case Acquired => s.(core := c.Take(pid), loop := Launching(pid))
  }

  function LaunchStep(s: State, outcome: LaunchOutcome): (r: State)
    requires s.loop.Launching?
  {
    var pid := s.loop.pid;
    var t := Blame(s.(core := s.core.Launch(pid, outcome, s.now), loop := WaitPre), pid !in s.core.specs, MissingSpec);
    if outcome.Started?
    then Blame(t.(sups := s.sups[pid := Supervisor(s.core.SpecOf(pid).uid, Warm, false, false)]),
               pid in s.sups, SecondSupervisor)
    else Blame(t, pid !in s.core.pre.owners, NonOwnerRelease)
  }

  // ---- superviseInstance and handleExit ----

  function ReadyStep(s: State, pid: int): (r: State)
    requires pid in s.sups
  {
    match s.core.on.Try(pid)
    case DoubleAcquire => Blame(s, true, Fault.DoubleAcquire)
    case Full => SetPhase(s, pid, Refused)
    case Acquired => SetPhase(s.(core := s.core.(on := s.core.on.Acquire(pid))), pid, Both)
  }

  function ReleasePreStep(s: State, pid: int): (r: State)
    requires pid in s.sups
  {
    ReleasePre(SetPhase(s, pid, Held), pid)
  }

  function EnterStep(s: State, pid: int, ok: bool): (r: State)
    requires pid in s.sups
  {
    if ok then SetPhase(s, pid, Active)
    else ReleaseOn(CloseOwn(SetPhase(s, pid, Exiting), pid), pid)
  }

  function RefuseStep(s: State, pid: int): (r: State)
    requires pid in s.sups
  {
    ReleasePre(CloseOwn(SetPhase(s, pid, Exiting), pid), pid)
  }

  function DoneEarlyStep(s: State, pid: int): (r: State)
    requires pid in s.sups
  {
    ReleasePre(SetPhase(s, pid, Exiting), pid)
  }

  function DoneStep(s: State, pid: int): (r: State)
    requires pid in s.sups
  {
    ReleaseOn(SetPhase(s, pid, Exiting), pid)
  }

  function ExitStep(s: State, pid: int): (r: State)
    requires pid in s.sups
  {
    var uid := s.sups[pid].uid;
    Blame(s.(core := s.core.HandleExit(pid, uid, s.now), sups := s.sups - {pid}),
          s.core.Authoritative(pid, uid) && pid !in s.core.specs, MissingSpec)
  }

  // ---- the operating system ----

  function EnvStep(s: State, pid: int, finished: bool): (r: State)
    requires pid in s.sups
  {
    s.(sups := s.sups[pid := if finished then s.sups[pid].(done := true) else s.sups[pid].(ready := true)])
  }

  function Apply(s: State, a: Action): (r: State)
    requires Enabled(s, a)
  {
    match a
    case Add(uid, argv, cooldown) => AddStep(s, uid, argv, cooldown)
    case Remove(uid) => s.(core := s.core.Remove(uid))
    case UpdateBegin(maxPre, maxOn) => BeginStep(s, maxPre, maxOn)
    case UpdateListPre(owners) => ListPreStep(s, owners)
    case UpdateClosePre => ClosePreStep(s)
    case UpdateCheckOn => CheckOnStep(s)
    case UpdateListOn(owners) => ListOnStep(s, owners)
    case UpdateCloseOn => CloseOnStep(s)
    case LoopPassPre => s.(loop := WaitOn)
    case LoopPassOn => s.(loop := WantLock)
    case LoopLock(pid) => LockStep(s, pid)
    case LoopTryAcquire => TryAcquireStep(s)
    case LoopLaunch(outcome) => LaunchStep(s, outcome)
    case LoopWakeSignal => s.(core := s.core.(sig := false), loop := WaitPre)
    case LoopWakeTimer => s.(loop := WaitPre)
    case SupReady(pid) => ReadyStep(s, pid)
    case SupReleasePre(pid) => ReleasePreStep(s, pid)
    case SupEnter(pid, ok) => EnterStep(s, pid, ok)
    case SupRefuse(pid) => RefuseStep(s, pid)
    case SupDoneEarly(pid) => DoneEarlyStep(s, pid)
    case SupDone(pid) => DoneStep(s, pid)
    case SupExit(pid) => ExitStep(s, pid)
    case EnvReady(pid) => EnvStep(s, pid, false)
    case EnvDone(pid) => EnvStep(s, pid, true)
    case Tick(dt) => s.(now := s.now + dt)
  }

  /** Which calls of UpdateLimits a run may contain. */
  datatype Limits = Fixed | AtMost(maxPre: int, maxOn: int) | NonNegative | Any

  predicate Permits(l: Limits, a: Action) {
    match l
    case Fixed => !a.UpdateBegin?
    case AtMost(maxPre, maxOn) => a.UpdateBegin? ==> a.maxPre <= maxPre && a.maxOn <= maxOn
    case NonNegative => a.UpdateBegin? ==> a.maxPre >= 0 && a.maxOn >= 0
    case Any => true
  }

  /** A run is any sequence of permitted and enabled actions. */
  ghost predicate Legal(l: Limits, s: State, acts: seq<Action>)
    decreases |acts|
  {
    acts == [] || (Permits(l, acts[0]) && Enabled(s, acts[0]) && Legal(l, Apply(s, acts[0]), acts[1..]))
  }

  ghost function Exec(l: Limits, s: State, acts: seq<Action>): (r: State)
    requires Legal(l, s, acts)
    decreases |acts|
  {
    if acts == [] then s else Exec(l, Apply(s, acts[0]), acts[1..])
  }

  ghost predicate Reaches(l: Limits, s: State, t: State) {
    exists acts: seq<Action> :: Legal(l, s, acts) && t == Exec(l, s, acts)
  }

  /** `s` occurs in some run of a manager created with these limits. */
  ghost predicate Reachable(maxPre: int, maxOn: int, l: Limits, s: State) {
    exists t0: int :: Reaches(l, Init(maxPre, maxOn, t0), s)
  }

  lemma {:induction false} ExecExtends(l: Limits, s: State, acts: seq<Action>, a: Action)
    requires Legal(l, s, acts) && Permits(l, a) && Enabled(Exec(l, s, acts), a)
    ensures Legal(l, s, acts + [a]) && Exec(l, s, acts + [a]) == Apply(Exec(l, s, acts), a)
    decreases |acts|
  {
    if acts == [] {
      assert Legal(l, Apply(s, a), []);
      assert (acts + [a])[1..] == [];
    } else {
      ExecExtends(l, Apply(s, acts[0]), acts[1..], a);
      assert (acts + [a])[1..] == acts[1..] + [a];
    }
  }

  lemma Then(l: Limits, s: State, t: State, a: Action) returns (u: State)
    requires Reaches(l, s, t) && Permits(l, a) && Enabled(t, a)
    ensures u == Apply(t, a) && Reaches(l, s, u)
  {
    var acts: seq<Action> :| Legal(l, s, acts) && t == Exec(l, s, acts);
    ExecExtends(l, s, acts, a);
    u := Apply(t, a);
  }

  lemma Extend(maxPre: int, maxOn: int, l: Limits, s: State, a: Action) returns (t: State)
    requires Reachable(maxPre, maxOn, l, s) && Permits(l, a) && Enabled(s, a)
    ensures t == Apply(s, a) && Reachable(maxPre, maxOn, l, t)
  {
    var t0: int :| Reaches(l, Init(maxPre, maxOn, t0), s);
    t := Then(l, Init(maxPre, maxOn, t0), s, a);
  }

  lemma Stay(l: Limits, s: State)
    ensures Reaches(l, s, s)
  {
    assert Legal(l, s, []) && Exec(l, s, []) == s;
  }
}

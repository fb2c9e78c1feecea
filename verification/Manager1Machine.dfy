/** The first process manager (internal/infrastructure/processmgr/process_manager.go) as a state
    machine.  Its loop does everything under one lock, so a turn of the loop is one step; the exit
    handler of a process waits for Done before it takes the lock. */
module Manager1Machine {
  import opened Wrappers
  import opened PidAllocation
  import opened ExecSpecs

  datatype Core = Core(
    units: map<int, int>,
    specs: map<int, Spec>,
    ps: set<int>,
    next: Pid,
    inUse: set<int>,
    sched: map<int, int>,
    sig: bool)
  {
    function SpecOf(pid: int): (r: Spec) {
      if pid in specs then specs[pid] else ZERO_SPEC
    }

    function Schedule(pid: int, at: int): (r: Core) {
      this.(sched := sched[pid := at], sig := true)
    }

    function NewPid(): (r: Option<Pid>) {
      Alloc(next, inUse)
    }

    function Add(uid: int, argv: seq<string>, cooldown: int, now: int): (r: Core) {
      if uid in units || NewPid().None? then this
      else
        var pid := NewPid().value;
        this.(next := Succ(pid, PID_MAX), inUse := inUse + {pid},
              units := units[uid := pid], specs := specs[pid := Spec(uid, argv, cooldown)])
            .Schedule(pid, now)
    }

    function Remove(uid: int): (r: Core) {
      if uid !in units then this
      else
        var pid := units[uid];
        this.(units := units - {uid}, specs := specs - {pid}, ps := ps - {pid}, sched := sched - {pid})
    }

    /** Take a due PID off the schedule and launch it. */
    function Launch(pid: int, outcome: LaunchOutcome, now: int): (r: Core) {
      var c := this.(sched := sched - {pid});
      match outcome
      case Started => c.(ps := ps + {pid})
      case NotStarted => c.(ps := ps - {pid}).Schedule(pid, now + SpecOf(pid).cooldown)
      case NotConstructed => c.Schedule(pid, now + SpecOf(pid).cooldown)
    }

    predicate Authoritative(pid: int, uid: int) {
      uid in units && units[uid] == pid
    }

    /** The exit handler; it keeps the cooldown its process was launched with. */
    function HandleExit(pid: int, spec: Spec, now: int): (r: Core) {
      var c := this.(ps := ps - {pid});
      if Authoritative(pid, spec.uid)
      then c.Schedule(pid, now + spec.cooldown)
      else c.(inUse := inUse - {pid})
    }
  }

  /** A launched process whose exit handler has not run; `done` once it is reaped. */
  datatype Instance = Instance(spec: Spec, done: bool)

  datatype LoopPc = Awake | ParkedEmpty | ParkedUntil(deadline: int)

  datatype Fault = PidsExhausted | SecondProcess | MissingSpec

  datatype State = State(core: Core, loop: LoopPc, procs: map<int, Instance>, now: int, faults: set<Fault>)

  datatype Action =
    | Add(uid: int, argv: seq<string>, cooldown: int)
    | Remove(uid: int)
    | LoopTurn(pid: int, outcome: LaunchOutcome) | LoopWakeSignal | LoopWakeTimer
    | Finish(pid: int) | Exit(pid: int)
    | Tick(dt: nat)

  function Init(now: int): (r: State) {
    State(Core(map[], map[], {}, 1, {}, map[], false), Awake, map[], now, {})
  }

  ghost predicate Enabled(s: State, a: Action) {
    match a
    case LoopTurn(pid, _) => s.loop.Awake? && (s.core.sched == map[] || Soonest(s.core.sched, pid))
    case LoopWakeSignal => !s.loop.Awake? && s.core.sig
    case LoopWakeTimer => s.loop.ParkedUntil? && s.loop.deadline <= s.now
    case Finish(pid) => pid in s.procs
    case Exit(pid) => pid in s.procs && s.procs[pid].done
    case _ => true
  }

  function Blame(s: State, bad: bool, f: Fault): (r: State) {
    if bad then s.(faults := s.faults + {f}) else s
  }

  function AddStep(s: State, uid: int, argv: seq<string>, cooldown: int): (r: State) {
    Blame(s.(core := s.core.Add(uid, argv, cooldown, s.now)),
          uid !in s.core.units && s.core.NewPid().None?, PidsExhausted)
  }

  function LaunchStep(s: State, pid: int, outcome: LaunchOutcome): (r: State) {
    var t := Blame(s.(core := s.core.Launch(pid, outcome, s.now)), pid !in s.core.specs, MissingSpec);
    if outcome.Started?
    then Blame(t.(procs := s.procs[pid := Instance(s.core.SpecOf(pid), false)]), pid in s.procs, SecondProcess)
    else t
  }

  function TurnStep(s: State, pid: int, outcome: LaunchOutcome): (r: State)
    requires s.core.sched == map[] || pid in s.core.sched
  {
    if s.core.sched == map[] then s.(loop := ParkedEmpty)
    else if s.core.sched[pid] > s.now then s.(loop := ParkedUntil(s.core.sched[pid]))
    else LaunchStep(s, pid, outcome)
  }

  /** The process is reaped. */
  function FinishStep(s: State, pid: int): (r: State)
    requires pid in s.procs
  {
    s.(procs := s.procs[pid := s.procs[pid].(done := true)])
  }

  function ExitStep(s: State, pid: int): (r: State)
    requires pid in s.procs
  {
    s.(core := s.core.HandleExit(pid, s.procs[pid].spec, s.now), procs := s.procs - {pid})
  }

  function Apply(s: State, a: Action): (r: State)
    requires Enabled(s, a)
  {
    match a
    case Add(uid, argv, cooldown) => AddStep(s, uid, argv, cooldown)
    case Remove(uid) => s.(core := s.core.Remove(uid))
    case LoopTurn(pid, outcome) => TurnStep(s, pid, outcome)
    case LoopWakeSignal => s.(core := s.core.(sig := false), loop := Awake)
    case LoopWakeTimer => s.(loop := Awake)
    case Finish(pid) => FinishStep(s, pid)
    case Exit(pid) => ExitStep(s, pid)
    case Tick(dt) => s.(now := s.now + dt)
  }

  ghost predicate Legal(s: State, acts: seq<Action>)
    decreases |acts|
  {
    acts == [] || (Enabled(s, acts[0]) && Legal(Apply(s, acts[0]), acts[1..]))
  }

  ghost function Exec(s: State, acts: seq<Action>): (r: State)
    requires Legal(s, acts)
    decreases |acts|
  {
    if acts == [] then s else Exec(Apply(s, acts[0]), acts[1..])
  }

  ghost predicate Reachable(s: State) {
    exists t0: int, acts: seq<Action> :: Legal(Init(t0), acts) && s == Exec(Init(t0), acts)
  }
}

/** What every step of the first process manager keeps. */
module Manager1Invariant {
  import opened Wrappers
  import opened PidAllocation
  import opened ExecSpecs
  import opened Manager1Machine

  ghost predicate Places(s: State) {
    && (forall p :: p in s.core.specs ==> (p in s.core.sched <==> p !in s.procs))
    && (forall p :: p in s.core.sched ==> p in s.core.specs)
    && (forall p :: p in s.procs && p in s.core.specs ==> s.procs[p].spec == s.core.specs[p])
    && (forall p :: p in s.core.ps <==> p in s.core.specs && p in s.procs)
  }

  ghost predicate Pids(s: State) {
    && (forall p :: p in s.core.inUse ==> InRange(p, PID_MAX))
    && (forall p :: p in s.core.specs || p in s.procs ==> p in s.core.inUse)
  }

  ghost predicate Woken(s: State) {
    && (s.loop.ParkedEmpty? ==> s.core.sig || s.core.sched == map[])
    && (s.loop.ParkedUntil? ==> s.core.sig || forall p :: p in s.core.sched ==> s.loop.deadline <= s.core.sched[p])
  }

  ghost predicate Inv(s: State) {
    Inverse(s.core.units, s.core.specs) && Places(s) && Pids(s) && Woken(s) && s.faults <= {PidsExhausted}
  }

  lemma AddKeepsInv(s: State, uid: int, argv: seq<string>, cooldown: int)
    requires Inv(s)
    ensures Inv(AddStep(s, uid, argv, cooldown))
  {
  }

  lemma LaunchKeepsInv(s: State, pid: int, outcome: LaunchOutcome)
    requires Inv(s) && pid in s.core.sched && s.loop.Awake?
    ensures Inv(LaunchStep(s, pid, outcome))
  {
  }

  lemma RemoveKeepsInv(s: State, uid: int)
    requires Inv(s)
    ensures Inv(s.(core := s.core.Remove(uid)))
  {
  }

  lemma TurnKeepsInv(s: State, pid: int, outcome: LaunchOutcome)
    requires Inv(s) && s.loop.Awake? && (s.core.sched == map[] || Soonest(s.core.sched, pid))
    ensures Inv(TurnStep(s, pid, outcome))
  {
    if s.core.sched != map[] && s.core.sched[pid] <= s.now {
      LaunchKeepsInv(s, pid, outcome);
    }
  }

  lemma ExitKeepsInv(s: State, pid: int)
    requires Inv(s) && pid in s.procs
    ensures Inv(ExitStep(s, pid))
  {
  }

  lemma FinishKeepsInv(s: State, pid: int)
    requires Inv(s) && pid in s.procs
    ensures Inv(FinishStep(s, pid))
  {
  }

  lemma StepKeepsInv(s: State, a: Action)
    requires Inv(s) && Enabled(s, a)
    ensures Inv(Apply(s, a))
  {
    match a
    case Add(uid, argv, cooldown) => AddKeepsInv(s, uid, argv, cooldown);
    case Remove(uid) => RemoveKeepsInv(s, uid);
    case LoopTurn(pid, outcome) => TurnKeepsInv(s, pid, outcome);
    case Finish(pid) => FinishKeepsInv(s, pid);
    case Exit(pid) => ExitKeepsInv(s, pid);
    case _ =>
  }

  lemma {:induction false} RunKeepsInv(s: State, acts: seq<Action>)
    requires Inv(s) && Legal(s, acts)
    ensures Inv(Exec(s, acts))
    decreases |acts|
  {
    if acts != [] {
      StepKeepsInv(s, acts[0]);
      RunKeepsInv(Apply(s, acts[0]), acts[1..]);
    }
  }

  lemma ReachableInv(s: State)
    requires Reachable(s)
    ensures Inv(s)
  {
    var t0: int, acts: seq<Action> :| Legal(Init(t0), acts) && s == Exec(Init(t0), acts);
    RunKeepsInv(Init(t0), acts);
  }

  /** A registered unit is pending or has a process, never both and never neither, and only registered
      PIDs are pending. */
  lemma UnitHasOneHome(s: State, uid: int)
    requires Reachable(s) && uid in s.core.units
    ensures s.core.units[uid] in s.core.sched <==> s.core.units[uid] !in s.procs
    ensures forall p :: p in s.core.sched ==> exists u :: u in s.core.units && s.core.units[u] == p
  {
    ReachableInv(s);
    var pid := s.core.units[uid];
    assert pid in s.core.specs && (pid in s.core.sched <==> pid !in s.procs);
    forall p | p in s.core.sched
      ensures exists u :: u in s.core.units && s.core.units[u] == p
    {
      assert s.core.specs[p].uid in s.core.units;
    }
  }

  // ---- PIDs that are never given back ----

  /** In use, though no unit and no process has it. */
  ghost predicate Leaked(s: State, p: int) {
    p in s.core.inUse && p !in s.core.specs && p !in s.procs
  }

  /** Removing a unit loses its PID exactly when the unit was only waiting to be launched. */
  lemma RemoveLeaksIffPending(s: State, uid: int)
    requires Reachable(s) && uid in s.core.units
    ensures Leaked(Apply(s, Remove(uid)), s.core.units[uid]) <==> s.core.units[uid] in s.core.sched
  {
    ReachableInv(s);
    UnitHasOneHome(s, uid);
  }

  lemma RemoveLeaks(s: State, uid: int, p: int)
    requires Inv(s)
    ensures Leaked(s, p) ==> Leaked(s.(core := s.core.Remove(uid)), p)
    ensures !Leaked(s, p) && Leaked(s.(core := s.core.Remove(uid)), p) ==>
              s.core.Authoritative(p, uid) && p in s.core.sched
  {
  }

  lemma AddKeepsLeak(s: State, uid: int, argv: seq<string>, cooldown: int, p: int)
    requires Inv(s)
    ensures Leaked(AddStep(s, uid, argv, cooldown), p) <==> Leaked(s, p)
  {
  }

  lemma TurnKeepsLeak(s: State, pid: int, outcome: LaunchOutcome, p: int)
    requires Inv(s) && (s.core.sched == map[] || Soonest(s.core.sched, pid))
    ensures Leaked(TurnStep(s, pid, outcome), p) <==> Leaked(s, p)
  {
  }

  lemma ExitKeepsLeak(s: State, pid: int, p: int)
    requires Inv(s) && pid in s.procs
    ensures Leaked(ExitStep(s, pid), p) <==> Leaked(s, p)
  {
  }

  /** A lost PID stays lost, and nothing but such a Remove loses one. */
  lemma LeakChanges(s: State, a: Action, p: int)
    requires Inv(s) && Enabled(s, a)
    ensures Leaked(s, p) ==> Leaked(Apply(s, a), p)
    ensures !Leaked(s, p) && Leaked(Apply(s, a), p) ==> a.Remove? && s.core.Authoritative(p, a.uid) && p in s.core.sched
  {
    match a
    case Add(uid, argv, cooldown) => AddKeepsLeak(s, uid, argv, cooldown, p);
    case Remove(uid) => RemoveLeaks(s, uid, p);
    case LoopTurn(pid, outcome) => TurnKeepsLeak(s, pid, outcome, p);
    case Exit(pid) => ExitKeepsLeak(s, pid, p);
    case _ =>
  }

  lemma {:induction false} LeakIsForever(s: State, acts: seq<Action>, p: int)
    requires Inv(s) && Legal(s, acts) && Leaked(s, p)
    ensures Leaked(Exec(s, acts), p)
    decreases |acts|
  {
    if acts != [] {
      StepKeepsInv(s, acts[0]);
      LeakChanges(s, acts[0], p);
      LeakIsForever(Apply(s, acts[0]), acts[1..], p);
    }
  }

  /** A PID goes back to the allocator only when its process is reaped and its unit is gone or re-added. */
  lemma ReleasedOnlyWhenDone(s: State, a: Action, p: int)
    requires Reachable(s) && Enabled(s, a) && p in s.core.inUse && p !in Apply(s, a).core.inUse
    ensures a == Exit(p) && s.procs[p].done && p !in s.core.specs
  {
    ReachableInv(s);
  }

  /** A PID handed out by Add has no process left, reaped or not, and no unit. */
  lemma AddIssuesFreshPid(s: State, uid: int, argv: seq<string>, cooldown: int)
    requires Reachable(s) && uid !in s.core.units && s.core.NewPid().Some?
    ensures var c := s.core.Add(uid, argv, cooldown, s.now);
            && uid in c.units && c.units[uid] !in s.procs && c.units[uid] !in s.core.sched
            && forall u :: u in s.core.units ==> s.core.units[u] != c.units[uid]
  {
    ReachableInv(s);
    assert s.core.NewPid().value !in s.core.inUse;
  }

  /** The exit of a superseded process frees its PID and changes nothing else. */
  lemma ExitIsConfined(s: State, pid: int)
    requires Reachable(s) && Enabled(s, Exit(pid))
    ensures var c := Apply(s, Exit(pid)).core;
            && c.units == s.core.units && c.specs == s.core.specs
            && (pid !in s.core.specs ==>
                c.sched == s.core.sched && c.ps == s.core.ps && c.inUse == s.core.inUse - {pid})
            && (pid in s.core.specs ==> c.inUse == s.core.inUse
                                        && c.sched == s.core.sched[pid := s.now + s.core.specs[pid].cooldown])
  {
    ReachableInv(s);
    assert pid !in s.core.specs ==> s.core.ps - {pid} == s.core.ps;
  }

  lemma NoLostWakeup(s: State)
    requires Reachable(s) && !s.core.sig
    ensures s.loop.ParkedEmpty? ==> s.core.sched == map[]
    ensures s.loop.ParkedUntil? ==> forall p :: p in s.core.sched ==> s.loop.deadline <= s.core.sched[p]
  {
    ReachableInv(s);
  }

  /** No process is ever started under a PID that still has one, or without a spec. */
  lemma NoSecondProcess(s: State)
    requires Reachable(s)
    ensures Fault.SecondProcess !in s.faults && Fault.MissingSpec !in s.faults
  {
    ReachableInv(s);
  }
}

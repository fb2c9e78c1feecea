/** The tables of the second process manager and what each locked operation does to them
    (internal/infrastructure/processmgr/process_manager2.go).

    `Core` is everything the manager's methods read and write.  The class ProcessManager2 is
    proved to compute these functions; the machine in Manager2Machine interleaves them. */
module Manager2Core {
  import opened Wrappers
  import opened SlotPools
  import opened PidAllocation
  import opened ExecSpecs

  datatype Core = Core(
    units: map<int, int>,      // UID to PID
    specs: map<int, Spec>,     // PID to spec
    ps: set<int>,              // PIDs with a live process entry
    closing: set<int>,         // PIDs whose supervised process has been asked to Close
    next: Pid,                 // PID allocator: cursor
    inUse: set<int>,           // PID allocator: taken PIDs
    pre: Pool,                 // preflight slots
    on: Pool,                  // onflight slots
    sched: map<int, int>,      // PID to launch time
    sig: bool)                 // a wake-up token is pending
  {
    function SpecOf(pid: int): (r: Spec) {
      if pid in specs then specs[pid] else ZERO_SPEC
    }

    function Schedule(pid: int, at: int): (r: Core) {
      this.(sched := sched[pid := at], sig := true)
    }

    function NewPid(): (r: Option<Pid>)
    {
      Alloc(next, inUse)
    }

    /** Add; the unit is refused when it is known, or when no PID is left (the allocator's panic). */
    function Add(uid: int, argv: seq<string>, cooldown: int, now: int): (r: Core)
    {
      if uid in units || NewPid().None? then this
      else
        var pid := NewPid().value;
        this.(next := Succ(pid, PID_MAX),
              inUse := inUse + {pid},
              units := units[uid := pid],
              specs := specs[pid := Spec(uid, argv, cooldown)])
            .Schedule(pid, now)
    }

    function Close(pid: int): (r: Core) {
      if pid in ps then this.(closing := closing + {pid}) else this
    }

    function Remove(uid: int): (r: Core) {
      if uid !in units then this
      else
        var pid := units[uid];
        Close(pid).(units := units - {uid}, specs := specs - {pid}, ps := ps - {pid},
                    sched := sched - {pid})
    }

    /** Launch of a PID that has its preflight slot and has been popped. */
    function Launch(pid: int, outcome: LaunchOutcome, now: int): (r: Core) {
      match outcome
      case Started => this.(ps := ps + {pid})
      case NotStarted => this.(pre := pre.Release(pid), ps := ps - {pid}).Schedule(pid, now + SpecOf(pid).cooldown)
      case NotConstructed => this.(pre := pre.Release(pid)).Schedule(pid, now + SpecOf(pid).cooldown)
    }

    /** The loop takes a due PID: a preflight slot for it, and off the schedule. */
    function Take(pid: int): (r: Core) {
      this.(pre := pre.Acquire(pid), sched := sched - {pid})
    }

    /** A supervisor from start to just before its exit handler: its preflight slot is returned, any
        onflight slot it got as well, and the process has been asked to Close when it was refused or could
        not be entered. */
    function Supervised(pid: int, readyFirst: bool, enterOk: bool): (r: Core) {
      var refused := readyFirst && !on.Try(pid).Acquired?;
      this.(pre := pre.Release(pid),
            closing := if refused || (readyFirst && !enterOk) then closing + {pid} else closing)
    }

    predicate Authoritative(pid: int, uid: int) {
      uid in units && units[uid] == pid
    }

    function HandleExit(pid: int, uid: int, now: int): (r: Core) {
      var c := this.(ps := ps - {pid}, closing := closing - {pid});
      if Authoritative(pid, uid)
      then c.Schedule(pid, now + SpecOf(pid).cooldown)
      else c.(inUse := inUse - {pid})
    }

    // ---- UpdateLimits, run without interference ----

    function CloseAll(todo: seq<int>): (r: Core)
      decreases |todo|
    {
      if todo == [] then this else Close(todo[0]).CloseAll(todo[1..])
    }

    /** Close what a listing of owners has in excess of `max`. */
    function CloseExcess(order: seq<int>, max: int): (r: Core) {
      if 0 <= max < |order| then CloseAll(order[..|order| - max]) else this
    }

    function TrimPre(max: int, order: seq<int>): (r: Core) {
      if pre.maxCap == max then this else this.(pre := pre.WithLimit(max)).CloseExcess(order, max)
    }

    function TrimOn(max: int, order: seq<int>): (r: Core) {
      if on.maxCap == max then this else this.(on := on.WithLimit(max)).CloseExcess(order, max)
    }

    /** A negative limit that is news to the pool slices out of bounds. */
    predicate SlicesPre(max: int) {
      max < 0 && pre.maxCap != max
    }

    predicate SlicesOn(max: int) {
      max < 0 && on.maxCap != max
    }

    function UpdateLimits(maxPre: int, maxOn: int, preOrder: seq<int>, onOrder: seq<int>): (r: Core) {
      var c := TrimPre(maxPre, preOrder);
      if SlicesPre(maxPre) then c
      else if SlicesOn(maxOn) then c.TrimOn(maxOn, onOrder)
      else c.TrimOn(maxOn, onOrder).(sig := true)
    }
  }
}

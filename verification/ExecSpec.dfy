/** What both managers know about a process before it runs (execSpec in process_manager.go). */
module ExecSpecs {
  datatype Spec = Spec(uid: int, argv: seq<string>, cooldown: int)

  /** What `specs[pid]` yields for a PID that has no spec. */
  const ZERO_SPEC := Spec(0, [], 0)

  /** How newProcess and Start went. */
  datatype LaunchOutcome = NotConstructed | NotStarted | Started

  /** A pending PID that no other pending one precedes. */
  ghost predicate Soonest(sched: map<int, int>, pid: int) {
    pid in sched && forall q :: q in sched ==> sched[pid] <= sched[q]
  }

  /** The UID table and the spec table are inverse to each other. */
  ghost predicate Inverse(units: map<int, int>, specs: map<int, Spec>) {
    && (forall u :: u in units ==> units[u] in specs && specs[units[u]].uid == u)
    && (forall p :: p in specs ==> specs[p].uid in units && units[specs[p].uid] == p)
  }
}

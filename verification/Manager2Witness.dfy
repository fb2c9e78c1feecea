/** Runs that show what the second manager does not promise. */
module Manager2Witness {
  import Sets
  import opened Wrappers
  import opened SlotPools
  import opened PidAllocation
  import opened ExecSpecs
  import opened Manager2Core
  import opened Manager2Machine
  import opened Manager2Invariant
  import opened Manager2Capacity

  /** The loop is at its first gate, nothing is pending, and exactly the PIDs 1..n have been issued. */
  ghost predicate Issued(s: State, P: int, O: int, l: Limits, n: nat) {
    && Reachable(P, O, l, s) && s.loop.WaitPre? && s.upd.Idle? && s.core.sched == map[] && n <= PID_MAX
    && (forall u :: u in s.core.units ==> 1 <= u <= n)
    && (forall p :: p in s.core.inUse <==> 1 <= p <= n)
    && (n < PID_MAX ==> s.core.next == n + 1)
  }

  /** The PIDs 1..n all hold a slot, m of them preflight, k of them onflight, and nobody else does. */
  ghost predicate Filled(pre: Pool, on: Pool, n: nat, k: nat, m: nat) {
    && |pre.owners| == m && |on.owners| == k
    && (forall p :: 1 <= p <= n ==> p in pre.owners || p in on.owners)
    && (forall p :: p in pre.owners || p in on.owners ==> 1 <= p <= n)
  }

  /** All issued PIDs hold a slot. */
  ghost predicate Stage(s: State, P: int, O: int, n: nat, k: nat, m: nat) {
    Issued(s, P, O, Fixed, n) && Filled(s.core.pre, s.core.on, n, k, m)
  }

  lemma FilledMore(pre: Pool, on: Pool, n: nat, k: nat, m: nat)
    requires Filled(pre, on, n, k, m) && pre.Try(n + 1).Acquired?
    ensures Filled(pre.Acquire(n + 1), on, n + 1, k, m + 1)
  {
    assert pre.Acquire(n + 1).owners == pre.owners + {n + 1};
  }

  lemma FilledPromoted(pre: Pool, on: Pool, n: nat, k: nat, m: nat, pid: int)
    requires Filled(pre, on, n, k, m) && pid in pre.owners && on.Try(pid).Acquired?
    ensures m > 0 && Filled(pre.Release(pid), on.Acquire(pid), n, k + 1, m - 1)
  {
    assert pre.Release(pid).owners == pre.owners - {pid};
    assert on.Acquire(pid).owners == on.owners + {pid};
  }

  lemma NextIsFree(s: State, P: int, O: int, l: Limits, n: nat)
    requires Issued(s, P, O, l, n) && n < PID_MAX
    ensures s.core.NewPid() == Some(n + 1)
  {
    assert Nth(s.core.next, 0, PID_MAX) == n + 1;
  }

  lemma AddAndPassGates(s: State, P: int, O: int, n: nat, k: nat, m: nat) returns (t: State)
    requires Stage(s, P, O, n, k, m) && n < PID_MAX && m < P && k < O
    ensures Reachable(P, O, Fixed, t)
    ensures t == s.(loop := WantLock, core := s.core.Add(n + 1, [], 0, s.now))
    ensures t.core.sched == map[n + 1 := s.now]
  {
    ReachableBounded(P, O, s);
    NextIsFree(s, P, O, Fixed, n);
    var s1 := Extend(P, O, Fixed, s, Add(n + 1, [], 0));
    var s2 := Extend(P, O, Fixed, s1, LoopPassPre);
    t := Extend(P, O, Fixed, s2, LoopPassOn);
    assert t.core.sched == map[n + 1 := s.now];
  }

  lemma LaunchDue(s: State, P: int, O: int, pid: int) returns (t: State)
    requires Reachable(P, O, Fixed, s) && s.loop.WantLock? && s.upd.Idle?
    requires s.core.sched == map[pid := s.now] && s.core.pre.Try(pid).Acquired? && pid in s.core.specs && pid !in s.sups
    ensures Reachable(P, O, Fixed, t) && t.loop.WaitPre? && t.upd.Idle? && t.core.sched == map[]
    ensures t.core.inUse == s.core.inUse && t.core.next == s.core.next && t.core.units == s.core.units
    ensures t.core.pre == s.core.pre.Acquire(pid) && t.core.on == s.core.on
    ensures t.sups == s.sups[pid := Supervisor(s.core.specs[pid].uid, Warm, false, false)]
  {
    var u := TakeDue(s, P, O, pid);
    t := Extend(P, O, Fixed, u, LoopLaunch(Started));
  }

  lemma TakeDue(s: State, P: int, O: int, pid: int) returns (t: State)
    requires Reachable(P, O, Fixed, s) && s.loop.WantLock? && s.upd.Idle?
    requires s.core.sched == map[pid := s.now] && s.core.pre.Try(pid).Acquired?
    ensures Reachable(P, O, Fixed, t) && t == s.(core := s.core.Take(pid), loop := Launching(pid))
            && t.core.sched == map[]
  {
    assert pid in s.core.sched && Soonest(s.core.sched, pid);
    var s1 := Extend(P, O, Fixed, s, LoopLock(pid));
    assert s1 == s.(loop := Due(pid));
    t := Extend(P, O, Fixed, s1, LoopTryAcquire);
    assert t.core.sched == map[];
  }

  lemma StageFacts(s: State, P: int, O: int, n: nat, k: nat, m: nat)
    requires Stage(s, P, O, n, k, m) && n < PID_MAX
    ensures n + 1 !in s.sups && n + 1 !in s.core.pre.owners && n + 1 !in s.core.units
    ensures s.core.pre.maxCap == P && s.core.pre.usage == m
    ensures s.core.NewPid() == Some(n + 1)
  {
    ReachableBounded(P, O, s);
    NextIsFree(s, P, O, Fixed, n);
  }

  /** Add a unit and let the loop launch it. */
  lemma LaunchOne(s: State, P: int, O: int, n: nat, k: nat, m: nat) returns (t: State)
    requires Stage(s, P, O, n, k, m) && n < PID_MAX && m < P && k < O
    ensures Stage(t, P, O, n + 1, k, m + 1)
    ensures n + 1 !in s.sups && t.sups == s.sups[n + 1 := Supervisor(n + 1, Warm, false, false)]
    ensures t.core.units == s.core.units[n + 1 := n + 1]
  {
    StageFacts(s, P, O, n, k, m);
    var u := AddAndPassGates(s, P, O, n, k, m);
    t := LaunchDue(u, P, O, n + 1);
    StageNext(s, t, P, O, n, k, m);
  }

  lemma StageNext(s: State, t: State, P: int, O: int, n: nat, k: nat, m: nat)
    requires Stage(s, P, O, n, k, m) && n < PID_MAX && s.core.pre.Try(n + 1).Acquired?
    requires Reachable(P, O, Fixed, t) && t.loop.WaitPre? && t.upd.Idle? && t.core.sched == map[]
    requires t.core.units == s.core.units[n + 1 := n + 1]
    requires t.core.inUse == s.core.inUse + {n + 1} && t.core.next == Succ(n + 1, PID_MAX)
    requires t.core.pre == s.core.pre.Acquire(n + 1) && t.core.on == s.core.on
    ensures Stage(t, P, O, n + 1, k, m + 1)
  {
    FilledMore(s.core.pre, s.core.on, n, k, m);
  }

  lemma Activate(s: State, P: int, O: int, pid: int) returns (t: State)
    requires Reachable(P, O, Fixed, s) && InPhase(s, pid, Warm) && s.core.on.Try(pid).Acquired?
             && pid in s.core.pre.owners
    ensures Reachable(P, O, Fixed, t) && t.loop == s.loop && t.upd == s.upd
    ensures t.core == s.core.(pre := s.core.pre.Release(pid), on := s.core.on.Acquire(pid))
  {
    var s1 := Extend(P, O, Fixed, s, EnvReady(pid));
    var s2 := Extend(P, O, Fixed, s1, SupReady(pid));
    var s3 := Extend(P, O, Fixed, s2, SupReleasePre(pid));
    t := Extend(P, O, Fixed, s3, SupEnter(pid, true));
  }

  /** A warm process becomes ready, is promoted and enters. */
  lemma ActivateOne(s: State, P: int, O: int, n: nat, k: nat, m: nat, pid: int) returns (t: State)
    requires Stage(s, P, O, n, k, m) && InPhase(s, pid, Warm) && k < O
    ensures m > 0 && Stage(t, P, O, n, k + 1, m - 1)
  {
    WarmCanEnter(s, P, O, pid);
    FilledPromoted(s.core.pre, s.core.on, n, k, m, pid);
    t := Activate(s, P, O, pid);
  }

  lemma WarmCanEnter(s: State, P: int, O: int, pid: int)
    requires Reachable(P, O, Fixed, s) && InPhase(s, pid, Warm) && |s.core.on.owners| < O
    ensures pid in s.core.pre.owners && s.core.on.Try(pid).Acquired?
  {
    ReachableBounded(P, O, s);
  }

  lemma {:induction false} ReachActive(P: int, O: int, k: nat) returns (s: State)
    requires P >= 1 && k < O && k <= PID_MAX
    ensures Stage(s, P, O, k, k, 0)
    decreases k
  {
    if k == 0 {
      s := Init(P, O, 0);
      Stay(Fixed, s);
    } else {
      var a := ReachActive(P, O, k - 1);
      var b := LaunchOne(a, P, O, k - 1, k - 1, 0);
      s := ActivateOne(b, P, O, k, k - 1, 1, k);
    }
  }

  lemma {:induction false} ReachWarm(P: int, O: int, k: nat, m: nat) returns (s: State)
    requires P >= 1 && k < O && m <= P && k + m <= PID_MAX
    ensures Stage(s, P, O, k + m, k, m)
    decreases m
  {
    if m == 0 {
      s := ReachActive(P, O, k);
    } else {
      var a := ReachWarm(P, O, k, m - 1);
      s := LaunchOne(a, P, O, k + m - 1, k, m - 1);
    }
  }

  /** The pipeline bound is attained. */
  lemma PipelineBoundIsTight(P: int, O: int)
    requires P >= 1 && O >= 1 && P + O - 1 <= PID_MAX
    ensures exists s: State :: Reachable(P, O, Fixed, s) && |Holders(s)| == P + O - 1
  {
    var s := ReachWarm(P, O, O - 1, P);
    RangeIsFull(Holders(s), P + O - 1);
    assert Reachable(P, O, Fixed, s) && |Holders(s)| == P + O - 1;
  }

  /** A Ready process that will be refused its onflight slot. */
  ghost predicate Stranded(s: State, pid: int) {
    InPhase(s, pid, Warm) && s.sups[pid].ready && s.core.on.Try(pid).Full?
  }

  ghost predicate Strands(P: int, O: int) {
    exists s: State, pid: int :: Reachable(P, O, Fixed, s) && Stranded(s, pid)
  }

  lemma StrandingNeedsRoom(P: int, O: int, s: State, pid: int)
    requires Reachable(P, O, Fixed, s) && Stranded(s, pid)
    ensures P >= 2 && 1 <= O < PID_MAX
  {
    ReachableBounded(P, O, s);
    var both := s.core.on.owners + {pid};
    assert pid in s.core.pre.owners && pid !in s.core.on.owners;
    Sets.SubsetSize(both, Holders(s));
    assert |both| >= O + 1;
    assert forall p :: p in both ==> 1 <= p <= PID_MAX;
    RangeSize(both, PID_MAX);
  }

  lemma {:induction false} RangeSize(s: set<int>, n: nat)
    requires forall p :: p in s ==> 1 <= p <= n
    ensures |s| <= n
    decreases n
  {
    if s == {} {
    } else if n == 0 {
      var p := Sets.Element(s);
    } else {
      RangeSize(s - {n}, n - 1);
    }
  }

  lemma {:induction false} RangeIsFull(s: set<int>, n: nat)
    requires forall p :: p in s <==> 1 <= p <= n
    ensures |s| == n
    decreases n
  {
    if s == {} {
    } else if n == 0 {
      var p := Sets.Element(s);
    } else {
      RangeIsFull(s - {n}, n - 1);
    }
  }

  /** Two warm processes and one onflight slot. */
  ghost predicate Rivals(s: State, O: int, first: int, second: int) {
    && first != second && InPhase(s, first, Warm) && InPhase(s, second, Warm)
    && Slots(s) && s.core.on.maxCap == O && s.core.on.usage == O - 1
  }

  lemma MakeReady(s: State, P: int, O: int, pid: int) returns (t: State)
    requires Reachable(P, O, Fixed, s) && pid in s.sups
    ensures Reachable(P, O, Fixed, t) && t == EnvStep(s, pid, false)
  {
    t := Extend(P, O, Fixed, s, EnvReady(pid));
  }

  lemma SecondIsStranded(s: State, O: int, first: int, second: int)
    requires Rivals(s, O, first, second) && s.sups[second].ready
    ensures Stranded(ReadyStep(s, first), second)
  {
  }

  lemma PromoteOneOfTwo(s: State, P: int, O: int, first: int, second: int)
    requires Reachable(P, O, Fixed, s) && Rivals(s, O, first, second)
    ensures Strands(P, O)
  {
    var d := MakeReady(s, P, O, first);
    RivalsStay(s, O, first, second, first);
    var e := MakeReady(d, P, O, second);
    RivalsStay(d, O, first, second, second);
    PromoteFirst(e, P, O, first, second);
  }

  lemma PromoteFirst(s: State, P: int, O: int, first: int, second: int)
    requires Reachable(P, O, Fixed, s) && Rivals(s, O, first, second) && s.sups[first].ready && s.sups[second].ready
    ensures Strands(P, O)
  {
    SecondIsStranded(s, O, first, second);
    var t := Extend(P, O, Fixed, s, SupReady(first));
    assert t == ReadyStep(s, first);
  }

  lemma RivalsStay(s: State, O: int, first: int, second: int, pid: int)
    requires Rivals(s, O, first, second) && pid in s.sups
    ensures Rivals(EnvStep(s, pid, false), O, first, second)
    ensures EnvStep(s, pid, false).sups[pid].ready
  {
  }

  lemma LaunchTwo(P: int, O: int) returns (s: State)
    requires P >= 2 && 1 <= O < PID_MAX
    ensures Stage(s, P, O, O + 1, O - 1, 2) && InPhase(s, O, Warm) && InPhase(s, O + 1, Warm)
  {
    var a := ReachActive(P, O, O - 1);
    var b := LaunchOne(a, P, O, O - 1, O - 1, 0);
    s := LaunchOne(b, P, O, O, O - 1, 1);
  }

  lemma StrandingRun(P: int, O: int)
    requires P >= 2 && 1 <= O < PID_MAX
    ensures Strands(P, O)
  {
    var c := LaunchTwo(P, O);
    ReachableBounded(P, O, c);
    PromoteOneOfTwo(c, P, O, O, O + 1);
  }

  /** The documented guarantee, that a launched process is never left at readiness without an onflight
      slot, is kept exactly when at most one process may warm up, or none can be active, or there are
      not enough PIDs to fill the onflight pool and still have one more. */
  lemma GuaranteeKeptIff(P: int, O: int)
    ensures !Strands(P, O) <==> P <= 1 || O <= 0 || O >= PID_MAX
  {
    if Strands(P, O) {
      var s: State, pid: int :| Reachable(P, O, Fixed, s) && Stranded(s, pid);
      StrandingNeedsRoom(P, O, s, pid);
    }
    if P >= 2 && 1 <= O < PID_MAX {
      StrandingRun(P, O);
    }
  }
}

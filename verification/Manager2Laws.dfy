/** What each step of the second manager changes, field by field: who is asked to close, what is put on
    the schedule and for when, whose spec is whose, and where supervisors go.  The laws speak of the
    tables themselves, so that they say what the operations are for and not how they are written. */
module Manager2Laws {
  import Sets
  import opened Wrappers
  import opened SlotPools
  import opened PidAllocation
  import opened ExecSpecs
  import opened Manager2Core
  import opened Manager2Machine
  import opened Manager2Invariant

  // ---- Who is asked to close ----

  /** The process that this step is meant to close: that of a removed unit, the next one in excess of a
      limit, or the one its own supervisor gives up. */
  predicate Targets(s: State, a: Action, p: int) {
    || (a.Remove? && a.uid in s.core.units && p == s.core.units[a.uid])
    || (a.UpdateClosePre? && s.upd.ClosePre? && s.upd.todo != [] && p == s.upd.todo[0])
    || (a.UpdateCloseOn? && s.upd.CloseOn? && s.upd.todo != [] && p == s.upd.todo[0])
    || (a.SupRefuse? && p == a.pid)
    || (a.SupEnter? && !a.ok && p == a.pid)
  }

  /** A Close reaches the process it is meant for and no other: what a step newly closes is its target, a
      target with a process is closed, and only its own exit clears the mark. */
  ghost predicate ClosesTargets(s: State, a: Action, t: State) {
    && (forall p :: p in t.core.closing && p !in s.core.closing ==> Targets(s, a, p))
    && (forall p :: Targets(s, a, p) && p in s.sups && (p in s.core.specs || SupAction(a)) ==> p in t.core.closing)
    && (forall p :: p in s.core.closing && p !in t.core.closing ==> a == SupExit(p))
    && (a.SupExit? ==> a.pid !in t.core.closing)
  }

  lemma RemoveClosesTarget(s: State, uid: int)
    requires Inv(s)
    ensures ClosesTargets(s, Remove(uid), s.(core := s.core.Remove(uid)))
  {
  }

  lemma ClosePreTargets(s: State)
    requires Inv(s) && s.upd.ClosePre?
    ensures ClosesTargets(s, UpdateClosePre, ClosePreStep(s))
  {
  }

  lemma CloseOnTargets(s: State)
    requires Inv(s) && s.upd.CloseOn?
    ensures ClosesTargets(s, UpdateCloseOn, CloseOnStep(s))
  {
  }

  lemma ExitClearsOwn(s: State, pid: int)
    requires pid in s.sups
    ensures ClosesTargets(s, SupExit(pid), ExitStep(s, pid))
  {
  }

  lemma SameMarks(s: State, a: Action, t: State)
    requires t.core.closing == s.core.closing && !a.SupExit? && forall p :: !Targets(s, a, p)
    ensures ClosesTargets(s, a, t)
  {
  }

  lemma SupClosesTargets(s: State, a: Action)
    requires Enabled(s, a) && SupAction(a)
    ensures ClosesTargets(s, a, Apply(s, a))
  {
    match a
    case SupExit(pid) => ExitClearsOwn(s, pid);
    case SupReady(pid) => assert ReadyStep(s, pid).core.closing == s.core.closing;
    case SupReleasePre(pid) => assert ReleasePreStep(s, pid).core.closing == s.core.closing;
    case SupEnter(pid, ok) => assert EnterStep(s, pid, ok).core.closing == s.core.closing + if ok then {} else {pid};
    case SupRefuse(pid) => assert RefuseStep(s, pid).core.closing == s.core.closing + {pid};
    case SupDoneEarly(pid) => assert DoneEarlyStep(s, pid).core.closing == s.core.closing;
    case SupDone(pid) => assert DoneStep(s, pid).core.closing == s.core.closing;
  }

  lemma LoopClosesNobody(s: State, a: Action)
    requires Enabled(s, a) && LoopAction(a)
    ensures ClosesTargets(s, a, Apply(s, a))
  {
    assert Apply(s, a).core.closing == s.core.closing;
    SameMarks(s, a, Apply(s, a));
  }

  lemma OthersCloseNobody(s: State, a: Action)
    requires Enabled(s, a) && !LoopAction(a) && !SupAction(a)
    requires !a.Remove? && !a.UpdateClosePre? && !a.UpdateCloseOn?
    ensures ClosesTargets(s, a, Apply(s, a))
  {
    assert Apply(s, a).core.closing == s.core.closing;
    SameMarks(s, a, Apply(s, a));
  }

  lemma ClosingChanges(s: State, a: Action)
    requires Inv(s) && Enabled(s, a)
    ensures ClosesTargets(s, a, Apply(s, a))
  {
    if SupAction(a) {
      SupClosesTargets(s, a);
    } else if a.Remove? {
      RemoveClosesTarget(s, a.uid);
    } else if a.UpdateClosePre? {
      ClosePreTargets(s);
    } else if a.UpdateCloseOn? {
      CloseOnTargets(s);
    } else if LoopAction(a) {
      LoopClosesNobody(s, a);
    } else {
      OthersCloseNobody(s, a);
    }
  }

  // ---- A whole UpdateLimits call ----

  /** What a trim to `max` closes, the owners being listed in this order. */
  predicate InExcess(cap: int, max: int, order: seq<int>, p: int) {
    cap != max && 0 <= max < |order| && p in order[..|order| - max]
  }

  lemma {:induction false} CloseAllCloses(c: Core, todo: seq<int>)
    ensures var d := c.CloseAll(todo);
            && d == c.(closing := d.closing)
            && forall p :: p in d.closing <==> p in c.closing || (p in c.ps && p in todo)
    decreases |todo|
  {
    if todo != [] {
      CloseAllCloses(c.Close(todo[0]), todo[1..]);
    }
  }

  lemma TrimPreCloses(c: Core, max: int, order: seq<int>)
    ensures var d := c.TrimPre(max, order);
            && d == c.(pre := d.pre, closing := d.closing)
            && d.pre == c.pre.(maxCap := if c.pre.maxCap != max && max < 0 then 0 else max)
            && forall p :: p in d.closing <==> p in c.closing || (p in c.ps && InExcess(c.pre.maxCap, max, order, p))
  {
    if c.pre.maxCap != max && 0 <= max < |order| {
      CloseAllCloses(c.(pre := c.pre.WithLimit(max)), order[..|order| - max]);
    }
  }

  lemma TrimOnCloses(c: Core, max: int, order: seq<int>)
    ensures var d := c.TrimOn(max, order);
            && d == c.(on := d.on, closing := d.closing)
            && d.on == c.on.(maxCap := if c.on.maxCap != max && max < 0 then 0 else max)
            && forall p :: p in d.closing <==> p in c.closing || (p in c.ps && InExcess(c.on.maxCap, max, order, p))
  {
    if c.on.maxCap != max && 0 <= max < |order| {
      CloseAllCloses(c.(on := c.on.WithLimit(max)), order[..|order| - max]);
    }
  }

  /** A whole call with limits that are not negative sets both, closes exactly the running processes among
      the front of each listing that the new limit leaves in excess, wakes the loop, and changes nothing
      else. */
  lemma UpdateLimitsIs(c: Core, maxPre: int, maxOn: int, preOrder: seq<int>, onOrder: seq<int>)
    requires maxPre >= 0 && maxOn >= 0
    ensures var d := c.UpdateLimits(maxPre, maxOn, preOrder, onOrder);
            && d == c.(pre := c.pre.(maxCap := maxPre), on := c.on.(maxCap := maxOn), closing := d.closing, sig := true)
            && forall p :: p in d.closing <==>
                 p in c.closing || (p in c.ps && (InExcess(c.pre.maxCap, maxPre, preOrder, p)
                                                  || InExcess(c.on.maxCap, maxOn, onOrder, p)))
  {
    TrimPreCloses(c, maxPre, preOrder);
    TrimOnCloses(c.TrimPre(maxPre, preOrder), maxOn, onOrder);
  }

  /** How far a pool's owners exceed a limit that is news to it. */
  function Excess(pool: Pool, max: int): (r: nat) {
    if pool.maxCap != max && |pool.owners| > max >= 0 then |pool.owners| - max else 0
  }

  /** Such a call closes owners only, and no more of them than are in excess. */
  lemma UpdateClosesNoMore(c: Core, maxPre: int, maxOn: int, preOrder: seq<int>, onOrder: seq<int>)
    requires maxPre >= 0 && maxOn >= 0 && Lists(preOrder, c.pre.owners) && Lists(onOrder, c.on.owners)
    ensures var closed := c.UpdateLimits(maxPre, maxOn, preOrder, onOrder).closing - c.closing;
            && closed <= c.pre.owners + c.on.owners
            && |closed| <= Excess(c.pre, maxPre) + Excess(c.on, maxOn)
  {
    var d := c.UpdateLimits(maxPre, maxOn, preOrder, onOrder);
    var closed := d.closing - c.closing;
    UpdateLimitsIs(c, maxPre, maxOn, preOrder, onOrder);
    var pre, on := preOrder[..Excess(c.pre, maxPre)], onOrder[..Excess(c.on, maxOn)];
    forall p | p in closed
      ensures p in Sets.Elems(pre) + Sets.Elems(on) && p in c.pre.owners + c.on.owners
    {
      assert InExcess(c.pre.maxCap, maxPre, preOrder, p) || InExcess(c.on.maxCap, maxOn, onOrder, p);
      assert p in pre ==> p in preOrder;
      assert p in on ==> p in onOrder;
    }
    Sets.ElemsSize(pre);
    Sets.ElemsSize(on);
    Sets.UnionSize(Sets.Elems(pre), Sets.Elems(on));
    Sets.SubsetSize(closed, Sets.Elems(pre) + Sets.Elems(on));
  }
}

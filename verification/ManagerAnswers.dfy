/** What the services take from a process manager as an answer, in terms of the managers' own tables. */
module ManagerAnswers {
  import opened Wrappers
  import opened SlotPools
  import opened Manager2Core
  import opened Manager2Refinement
  import opened B2BClients
  import M1 = Manager1Machine

  /** The registered units. */
  function Units(units: map<int, int>): (r: set<int>) {
    units.Keys
  }

  /** Add of the second manager: the unit is registered afterwards exactly when it was before or the
      allocator had a PID. */
  lemma AddAnswers(c: Core, uid: int, argv: seq<string>, cooldown: int, now: int)
    ensures Units(c.Add(uid, argv, cooldown, now).units) == Units(c.units)
            + if c.NewPid().Some? || uid in c.units then {uid} else {}
    ensures Units(c.Remove(uid).units) == Units(c.units) - {uid}
  {
    assert uid in c.units ==> Units(c.units) + {uid} == Units(c.units);
  }

  /** The same for the first. */
  lemma FirstAddAnswers(c: M1.Core, uid: int, argv: seq<string>, cooldown: int, now: int)
    ensures Units(c.Add(uid, argv, cooldown, now).units) == Units(c.units)
            + if c.NewPid().Some? || uid in c.units then {uid} else {}
    ensures Units(c.Remove(uid).units) == Units(c.units) - {uid}
  {
    assert uid in c.units ==> Units(c.units) + {uid} == Units(c.units);
  }

  /** UpdateLimits leaves the capacities, and panics, as the client service expects, whatever is running. */
  lemma UpdateLimitsAnswers(c: Core, maxPre: int, maxOn: int, preOrder: seq<int>, onOrder: seq<int>)
    ensures var d := c.UpdateLimits(maxPre, maxOn, preOrder, onOrder);
            Limits(d.pre.maxCap, d.on.maxCap) == Relimit(Limits(c.pre.maxCap, c.on.maxCap), maxPre, maxOn)
    ensures Panics(Limits(c.pre.maxCap, c.on.maxCap), maxPre, maxOn) <==> c.SlicesPre(maxPre) || c.SlicesOn(maxOn)
  {
    TrimPreKeepsOn(c, maxPre, preOrder);
    TrimPreCap(c, maxPre, preOrder);
    var d := c.TrimPre(maxPre, preOrder);
    TrimOnCaps(d, maxOn, onOrder);
  }

  lemma TrimPreCap(c: Core, max: int, order: seq<int>)
    ensures c.TrimPre(max, order).pre.maxCap == if c.pre.maxCap == max then max else Clamp(max)
  {
    if c.pre.maxCap != max && 0 <= max < |order| {
      CloseAllKeepsPools(c.(pre := c.pre.WithLimit(max)), order[..|order| - max]);
    }
  }

  lemma TrimOnCaps(c: Core, max: int, order: seq<int>)
    ensures c.TrimOn(max, order).on.maxCap == if c.on.maxCap == max then max else Clamp(max)
    ensures c.TrimOn(max, order).pre == c.pre
  {
    if c.on.maxCap != max && 0 <= max < |order| {
      CloseAllKeepsPools(c.(on := c.on.WithLimit(max)), order[..|order| - max]);
    }
  }
}

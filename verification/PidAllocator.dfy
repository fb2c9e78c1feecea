/** The wrap-around PID allocator (internal/infrastructure/processmgr/pid_allocator.go).

    `Scan` is the specification: walk the PIDs cyclically from `next` and take the first one
    that is free.  The class is the source's loop, proved to compute exactly that. */
module PidAllocation {
  import opened Wrappers

  const PID_MAX: int := 32768

  ghost predicate InRange(p: int, max: int) {
    1 <= p <= max
  }

  /** A PID of the allocator's own range. */
  type Pid = p: int | 1 <= p <= PID_MAX witness 1

  /** The PID visited at offset `k` of a cyclic walk that starts at `next`. */
  function Nth(next: int, k: nat, max: int): (p: int)
    requires InRange(next, max) && k < max
    ensures InRange(p, max)
  {
    if next + k <= max then next + k else next + k - max
  }

  function Succ(p: int, max: int): (r: int) {
    if p + 1 > max then 1 else p + 1
  }

  /** The first free PID at offset `k` or later; `None` when the walk comes full circle. */
  function Scan(next: int, inUse: set<int>, max: int, k: nat): (r: Option<int>)
    requires InRange(next, max) && k <= max
    ensures r.Some? ==> InRange(r.value, max) && r.value !in inUse
    decreases max - k
  {
    if k == max then None
    else if Nth(next, k, max) in inUse then Scan(next, inUse, max, k + 1)
    else Some(Nth(next, k, max))
  }

  function Alloc(next: Pid, inUse: set<int>): (r: Option<Pid>)
    ensures r.Some? ==> r.value !in inUse
  {
    Scan(next, inUse, PID_MAX, 0)
  }

  /** Every PID before the one returned, in cyclic order, is in use. */
  lemma {:induction false} ScanTakesFirst(next: int, inUse: set<int>, max: int, k: nat)
    requires InRange(next, max) && k <= max
    requires Scan(next, inUse, max, k).Some?
    ensures exists m: nat :: k <= m < max && Scan(next, inUse, max, k).value == Nth(next, m, max)
              && forall j: nat :: k <= j < m ==> Nth(next, j, max) in inUse
    decreases max - k
  {
    if Nth(next, k, max) in inUse {
      ScanTakesFirst(next, inUse, max, k + 1);
    } else {
      assert Scan(next, inUse, max, k).value == Nth(next, k, max);
    }
  }

  lemma {:induction false} ScanNone(next: int, inUse: set<int>, max: int, k: nat)
    requires InRange(next, max) && k <= max
    ensures Scan(next, inUse, max, k).None? <==> forall j: nat :: k <= j < max ==> Nth(next, j, max) in inUse
    decreases max - k
  {
    if k < max {
      ScanNone(next, inUse, max, k + 1);
    }
  }

  /** The allocator gives up exactly when the whole range 1..max is in use. */
  lemma ExhaustedIffFull(next: int, inUse: set<int>, max: int)
    requires InRange(next, max)
    ensures Scan(next, inUse, max, 0).None? <==> forall p :: InRange(p, max) ==> p in inUse
  {
    ScanNone(next, inUse, max, 0);
    forall p | InRange(p, max)
      ensures exists j: nat :: j < max && Nth(next, j, max) == p
    {
      var j := if p >= next then p - next else p - next + max;
      assert Nth(next, j, max) == p;
    }
  }

  /** The allocator's answer, in numbers: the next free PID at or above the cursor, else the lowest free one;
      none exactly when all of 1..32768 are taken. */
  lemma AllocTakesNextFree(next: Pid, inUse: set<int>)
    ensures Alloc(next, inUse).None? <==> forall p :: 1 <= p <= 32768 ==> p in inUse
    ensures Alloc(next, inUse).Some? ==>
              var p := Alloc(next, inUse).value;
              && 1 <= p <= 32768 && p !in inUse
              && (p >= next ==> forall q :: next <= q < p ==> q in inUse)
              && (p < next ==> forall q :: next <= q <= 32768 || 1 <= q < p ==> q in inUse)
  {
    ExhaustedIffFull(next, inUse, PID_MAX);
    assert forall p :: InRange(p, PID_MAX) <==> 1 <= p <= 32768;
    if Alloc(next, inUse).Some? {
      ScanTakesFirst(next, inUse, PID_MAX, 0);
      var m: nat :| m < PID_MAX && Alloc(next, inUse).value == Nth(next, m, PID_MAX)
                    && forall j: nat :: 0 <= j < m ==> Nth(next, j, PID_MAX) in inUse;
      forall q | 1 <= q <= 32768 && (if q >= next then q - next else q - next + PID_MAX) < m
        ensures q in inUse
      {
        var j := if q >= next then q - next else q - next + PID_MAX;
        assert Nth(next, j, PID_MAX) == q;
      }
    }
  }

  class PidAllocator {
    var next: int
    var inUse: set<int>
    const pidMax: int

    ghost predicate Valid()
      reads this
    {
      InRange(next, pidMax) && forall p :: p in inUse ==> InRange(p, pidMax)
    }

    constructor ()
      ensures Valid() && next == 1 && inUse == {} && pidMax == PID_MAX
    {
      next, inUse, pidMax := 1, {}, PID_MAX;
    }

    /** `None` is the source's panic: nothing is free.  The cursor is then back where it was. */
    method Alloc() returns (pid: Option<int>)
      requires Valid()
      modifies this
      ensures Valid()
      ensures pid == Scan(old(next), old(inUse), pidMax, 0)
      ensures pid.Some? ==> inUse == old(inUse) + {pid.value} && next == Succ(pid.value, pidMax)
      ensures pid.Some? ==> next == if pid.value == pidMax then 1 else pid.value + 1
      ensures pid.None? ==> inUse == old(inUse) && next == old(next)
    {
      var start := next;
      ghost var k: nat := 0;
      while true
        invariant k < pidMax && InRange(start, pidMax) && next == Nth(start, k, pidMax)
        invariant inUse == old(inUse)
        invariant Scan(start, inUse, pidMax, 0) == Scan(start, inUse, pidMax, k)
        decreases pidMax - k
      {
        var p := next;
        next := next + 1;
        if next > pidMax {
          next := 1;
        }
        if p !in inUse {
          inUse := inUse + {p};
          return Some(p);
        }
        if next == start {
          return None;
        }
        k := k + 1;
      }
    }

    method Release(pid: int)
      requires Valid()
      modifies this
      ensures Valid() && next == old(next) && inUse == old(inUse) - {pid}
    {
      inUse := inUse - {pid};
    }
  }
}

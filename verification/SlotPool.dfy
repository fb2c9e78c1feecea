/** The ownership-tracked semaphore (internal/infrastructure/processmgr/slot_pool.go).

    `Pool` is the state a slot pool holds under its own mutex; its functions are what the pool's
    operations do to it.  The two panics of the source are outcomes, so that the manager can be
    proved never to reach them. */
module SlotPools {
  import Sets

  datatype TryOutcome = Acquired | Full | DoubleAcquire

  datatype Pool = Pool(maxCap: int, usage: int, owners: set<int>) {
    /** The counter agrees with the ownership table. */
    ghost predicate Consistent() {
      usage == |owners|
    }

    ghost predicate HasSlot() {
      usage < maxCap
    }

    function Try(id: int): (r: TryOutcome) {
      if id in owners then DoubleAcquire
      else if usage >= maxCap then Full
      else Acquired
    }

    function Acquire(id: int): (r: Pool)
      ensures Consistent() ==> r.Consistent()
      ensures Consistent() && usage <= maxCap ==> r.usage <= r.maxCap
    {
      if Try(id).Acquired?
      then this.(usage := usage + 1, owners := owners + {id})
      else this
    }

    function Release(id: int): (r: Pool)
      ensures Consistent() ==> r.Consistent() && r.usage <= usage
    {
      if id in owners
      then this.(usage := usage - 1, owners := owners - {id})
      else this
    }

    function WithLimit(newCap: int): (r: Pool)
      ensures newCap >= 0 ==> r == this.(maxCap := newCap)
      ensures newCap < 0 ==> r == this.(maxCap := 0)
    {
      this.(maxCap := if newCap < 0 then 0 else newCap)
    }
  }

  /** A duplicate-free listing of a set, in some order: what ranging over a Go map yields. */
  ghost predicate Lists(order: seq<int>, s: set<int>) {
    && |order| == |s|
    && forall x :: x in order <==> x in s
  }

  class SlotPool {
    var maxCap: int
    var usage: int
    var acquiredBy: set<int>

    ghost function View(): (r: Pool)
      reads this
    {
      Pool(maxCap, usage, acquiredBy)
    }

    ghost predicate Valid()
      reads this
    {
      View().Consistent()
    }

    constructor (max: int)
      ensures Valid() && View() == Pool(max, 0, {})
    {
      maxCap, usage, acquiredBy := max, 0, {};
    }

    method TryAcquire(id: int) returns (r: TryOutcome)
      requires Valid()
      modifies this
      ensures Valid()
      ensures r == old(View()).Try(id)
      ensures View() == old(View()).Acquire(id)
    {
      if id in acquiredBy {
        return DoubleAcquire;
      }
      if usage >= maxCap {
        return Full;
      }
      usage := usage + 1;
      acquiredBy := acquiredBy + {id};
      return Acquired;
    }

    /** `false` is the source's panic on a non-owner. */
    method Release(id: int) returns (ok: bool)
      requires Valid()
      modifies this
      ensures Valid()
      ensures ok == (id in old(acquiredBy))
      ensures View() == old(View()).Release(id)
    {
      if id !in acquiredBy {
        return false;
      }
      acquiredBy := acquiredBy - {id};
      usage := usage - 1;
      return true;
    }

    method ListAcquired() returns (out: seq<int>)
      ensures Lists(out, acquiredBy)
    {
      out := [];
      var todo := acquiredBy;
      while todo != {}
        invariant todo <= acquiredBy && |out| + |todo| == |acquiredBy|
        invariant forall x :: x in out ==> x in acquiredBy
        invariant forall x :: x in acquiredBy ==> x in todo || x in out
        decreases todo
      {
        ghost var some := Sets.Element(todo);
        var id :| id in todo;
        out := out + [id];
        todo := todo - {id};
      }
    }

    method UpdateLimit(newCap: int)
      requires Valid()
      modifies this
      ensures Valid() && View() == old(View()).WithLimit(newCap)
    {
      var c := newCap;
      if c < 0 {
        c := 0;
      }
      maxCap := c;
    }

    method Capacity() returns (c: int)
      ensures c == maxCap
    {
      c := maxCap;
    }

    method Current() returns (n: int)
      requires Valid()
      ensures n == |acquiredBy|
    {
      n := usage;
    }
  }
}

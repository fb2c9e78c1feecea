/** The launch schedule (internal/infrastructure/processmgr/scheduler.go): an indexed binary heap
    plus a lookup table.  The sift loops are those of Go's container/heap, on which the source
    rests.  `View` is the map from PID to launch time that the whole structure stands for. */
module Scheduling {
  import opened Wrappers

  class SchedEvent {
    const id: int
    const when: int
    var index: int

    constructor (id: int, when: int)
      ensures this.id == id && this.when == when
    {
      this.id, this.when, this.index := id, when, 0;
    }
  }

  function Parent(k: int): (r: int) {
    if k == 0 then 0 else (k - 1) / 2
  }

  /** Position `k` is not earlier than its parent. */
  ghost predicate Above(h: seq<SchedEvent>, k: int) {
    1 <= k < |h| && h[Parent(k)].when <= h[k].when
  }

  /** Every child of `k` inside the first `n` positions is not earlier than the parent of `k`. */
  ghost predicate Bridges(h: seq<SchedEvent>, k: int, n: int) {
    forall c :: 1 <= c < n <= |h| && Parent(c) == k && 1 <= k ==> h[Parent(k)].when <= h[c].when
  }

  ghost predicate Heap(h: seq<SchedEvent>, n: int) {
    forall k :: 1 <= k < n ==> Above(h, k)
  }

  /** The root of a heap is minimal. */
  lemma {:induction false} RootIsMinimal(h: seq<SchedEvent>, n: int, k: int)
    requires Heap(h, n) && 0 <= k < n <= |h|
    ensures h[0].when <= h[k].when
    decreases k
  {
    if k > 0 {
      assert Above(h, k);
      RootIsMinimal(h, n, Parent(k));
    }
  }

  class Scheduler {
    var h: seq<SchedEvent>
    var entries: map<int, SchedEvent>

    /** Every event knows its own position. */
    ghost predicate Indexed()
      reads this, h
    {
      forall i :: 0 <= i < |h| ==> h[i].index == i
    }

    /** The heap and the table hold the same events. */
    ghost predicate Matched()
      reads this
    {
      && (forall e :: e in h ==> e.id in entries && entries[e.id] == e)
      && (forall id :: id in entries ==> entries[id] in h && entries[id].id == id)
    }

    ghost predicate Valid()
      reads this, h
    {
      Indexed() && Matched() && Heap(h, |h|)
    }

    ghost function View(): (r: map<int, int>)
      reads this
    {
      map id | id in entries :: entries[id].when
    }

    constructor ()
      ensures Valid() && View() == map[] && h == []
    {
      h, entries := [], map[];
    }

    method Swap(i: int, j: int)
      requires Indexed() && 0 <= i < |h| && 0 <= j < |h|
      modifies this`h, h[i], h[j]
      ensures h == old(h)[i := old(h)[j]][j := old(h)[i]]
      ensures Indexed()
      ensures forall e :: e in h <==> e in old(h)
    {
      h := h[i := h[j]][j := h[i]];
      h[i].index := i;
      h[j].index := j;
      assert h[i] == old(h)[j] && h[j] == old(h)[i];
      forall e | e in old(h)
        ensures e in h
      {
        var k :| 0 <= k < |old(h)| && old(h)[k] == e;
        assert h[if k == i then j else if k == j then i else k] == e;
      }
    }

    method Up(j0: int, ghost n: int)
      requires Indexed() && 0 <= j0 < n <= |h|
      requires forall k :: 1 <= k < n && k != j0 ==> Above(h, k)
      requires Bridges(h, j0, n)
      modifies this`h, h
      ensures Indexed() && |h| == |old(h)| && Heap(h, n)
      ensures forall e :: e in h <==> e in old(h)
      ensures n < |h| ==> h[n] == old(h)[n]
    {
      var j := j0;
      while true
        invariant Indexed() && |h| == |old(h)| && 0 <= j < n
        invariant forall e :: e in h <==> e in old(h)
        invariant n < |h| ==> h[n] == old(h)[n]
        invariant forall k :: 1 <= k < n && k != j ==> Above(h, k)
        invariant Bridges(h, j, n)
        decreases j
      {
        var i := Parent(j);
        if i == j || h[j].when >= h[i].when {
          assert j >= 1 ==> Above(h, j);
          break;
        }
        ghost var g := h;
        assert h[i] in old(h) && h[j] in old(h);
        Swap(i, j);
        SiftedUp(g, h, i, j, n);
        j := i;
      }
    }

    /** The child of `i` that is not later than the other. */
    method SoonerChild(i: int, n: int) returns (j: int)
      requires 0 <= i && 2 * i + 1 < n <= |h|
      ensures i < j < n && Parent(j) == i
      ensures forall c :: 1 <= c < n && Parent(c) == i ==> h[j].when <= h[c].when
    {
      var j1 := 2 * i + 1;
      j := j1;
      var j2 := j1 + 1;
      if j2 < n && h[j2].when < h[j1].when {
        j := j2;
      }
    }

    /** One step of the sift: the disorder moves from `i` down to its child `j`. */
    method SwapDown(ghost i0: int, i: int, j: int, ghost n: int)
      requires Indexed() && 0 <= i0 <= i < j < n <= |h| && Parent(j) == i
      requires h[j].when < h[i].when
      requires forall c :: 1 <= c < n && Parent(c) == i ==> h[j].when <= h[c].when
      requires forall k :: 1 <= k < n && Parent(k) != i && (k != i0 || i != i0) ==> Above(h, k)
      requires Bridges(h, i, n)
      modifies this`h, h[i], h[j]
      ensures Indexed() && |h| == |old(h)|
      ensures forall e :: e in h <==> e in old(h)
      ensures n < |h| ==> h[n] == old(h)[n]
      ensures forall k :: 1 <= k < n && Parent(k) != j ==> Above(h, k)
      ensures Bridges(h, j, n)
    {
      ghost var g := h;
      Swap(i, j);
      SiftedDown(g, h, i0, i, j, n);
    }

    method Down(i0: int, n: int) returns (moved: bool)
      requires Indexed() && 0 <= i0 && n <= |h| && i0 < n
      requires forall k :: 1 <= k < n && k != i0 && Parent(k) != i0 ==> Above(h, k)
      requires Bridges(h, i0, n)
      modifies this`h, h
      ensures Indexed() && |h| == |old(h)|
      ensures forall e :: e in h <==> e in old(h)
      ensures n < |h| ==> h[n] == old(h)[n]
      ensures moved ==> Heap(h, n)
      ensures !moved ==> h == old(h) && forall k :: 1 <= k < n && k != i0 ==> Above(h, k)
    {
      var i := i0;
      while true
        invariant Indexed() && |h| == |old(h)| && i0 <= i < n
        invariant forall e :: e in h <==> e in old(h)
        invariant n < |h| ==> h[n] == old(h)[n]
        invariant forall k :: 1 <= k < n && Parent(k) != i && (k != i0 || i != i0) ==> Above(h, k)
        invariant Bridges(h, i, n)
        invariant i == i0 ==> h == old(h)
        decreases n - i
      {
        if 2 * i + 1 >= n {
          break;
        }
        var j := SoonerChild(i, n);
        if h[j].when >= h[i].when {
          Settled(h, i, j, n);
          break;
        }
        assert h[i] in old(h) && h[j] in old(h);
        SwapDown(i0, i, j, n);
        i := j;
      }
      moved := i > i0;
    }

    /** container/heap's Push: append, then sift up. */
    method HeapPush(ev: SchedEvent)
      requires Indexed() && Heap(h, |h|) && ev !in h
      modifies this`h, h, ev
      ensures Indexed() && Heap(h, |h|) && |h| == |old(h)| + 1
      ensures forall e :: e in h <==> e in old(h) || e == ev
    {
      ev.index := |h|;
      h := h + [ev];
      ghost var g := h;
      Extended(old(h), ev);
      Up(|h| - 1, |h|);
      assert forall e :: e in g <==> e in old(h) || e == ev;
    }

    /** container/heap's Remove: swap with the last event, restore the order, drop it. */
    method HeapRemove(i: int) returns (ev: SchedEvent)
      requires Indexed() && Heap(h, |h|) && 0 <= i < |h|
      modifies this`h, h
      ensures ev == old(h)[i]
      ensures Indexed() && Heap(h, |h|) && |h| == |old(h)| - 1
      ensures forall e :: e in h <==> e in old(h) && e != ev
    {
      var n := |h| - 1;
      ev := h[i];
      if n != i {
        Swap(i, n);
        Detached(old(h), h, i, n);
        var moved := Down(i, n);
        if !moved {
          Up(i, n);
        }
      }
      DropLast(n);
      ev.index := -1;
      h := h[..n];
    }

    /** container/heap's Pop: swap root and last, sift down, drop the last. */
    method HeapPop() returns (ev: SchedEvent)
      requires Indexed() && Heap(h, |h|) && 0 < |h|
      modifies this`h, h
      ensures ev == old(h)[0]
      ensures Indexed() && Heap(h, |h|) && |h| == |old(h)| - 1
      ensures forall e :: e in h <==> e in old(h) && e != ev
    {
      var n := |h| - 1;
      ev := h[0];
      Swap(0, n);
      Detached(old(h), h, 0, n);
      if 0 < n {
        var _ := Down(0, n);
      }
      DropLast(n);
      ev.index := -1;
      h := h[..n];
    }

    method Remove(id: int)
      requires Valid()
      modifies this, h
      ensures Valid() && View() == old(View()) - {id}
      ensures forall e :: e in h ==> e in old(h)
    {
      if id !in entries {
        return;
      }
      var ev := entries[id];
      ghost var k :| 0 <= k < |h| && h[k] == ev;
      var _ := HeapRemove(ev.index);
      entries := entries - {id};
    }

    method Push(id: int, when: int)
      requires Valid()
      modifies this, h
      ensures Valid() && View() == old(View())[id := when]
      ensures forall e :: e in h ==> e in old(h) || fresh(e)
    {
      if id in entries {
        Remove(id);
      }
      assert forall i :: 0 <= i < |h| ==> h[i] in old(h);
      assert View() == old(View()) - {id};
      PushNew(id, when);
    }

    method PushNew(id: int, when: int)
      requires Valid() && id !in entries
      modifies this, h
      ensures Valid() && View() == old(View())[id := when]
      ensures forall e :: e in h ==> e in old(h) || fresh(e)
    {
      var ev := new SchedEvent(id, when);
      entries := entries[id := ev];
      HeapPush(ev);
      assert View() == old(View())[id := when];
    }

    /** The soonest event, left in place; `None` when nothing is scheduled. */
    method Next() returns (r: Option<(int, int)>)
      requires Valid()
      ensures r.None? <==> View() == map[]
      ensures r.Some? ==> r.value.0 in View() && View()[r.value.0] == r.value.1
      ensures r.Some? ==> forall id :: id in View() ==> r.value.1 <= View()[id]
      ensures r.Some? ==> |h| > 0 && r.value.0 == h[0].id
    {
      if |h| == 0 {
        assert forall id :: id !in entries;
        assert View() == map[];
        return None;
      }
      var ev := h[0];
      forall id | id in entries
        ensures ev.when <= entries[id].when
      {
        var k :| 0 <= k < |h| && h[k] == entries[id];
        RootIsMinimal(h, |h|, k);
      }
      assert ev in h && ev.id in View();
      return Some((ev.id, ev.when));
    }

    method Pop()
      requires Valid()
      modifies this, h
      ensures Valid()
      ensures |old(h)| == 0 ==> View() == old(View())
      ensures |old(h)| > 0 ==> View() == old(View()) - {old(h)[0].id}
      ensures forall e :: e in h ==> e in old(h)
    {
      if |h| == 0 {
        return;
      }
      var ev := HeapPop();
      entries := entries - {ev.id};
    }

    /** Putting the last event of a heap of n + 1 at position `i` leaves order broken only there. */
    static lemma Detached(g: seq<SchedEvent>, h: seq<SchedEvent>, i: int, n: int)
      requires 0 <= i <= n && |g| == n + 1 && Heap(g, n + 1) && h == g[i := g[n]][n := g[i]]
      ensures forall k :: 1 <= k < n && k != i && Parent(k) != i ==> Above(h, k)
      ensures Bridges(h, i, n)
      ensures h[n] == g[i]
    {
      forall k | 1 <= k < n && k != i && Parent(k) != i
        ensures Above(h, k)
      {
        assert Above(g, k);
      }
      forall c | 1 <= c < n && Parent(c) == i && 1 <= i
        ensures h[Parent(i)].when <= h[c].when
      {
        assert Above(g, c) && Above(g, i);
      }
    }

    static lemma Extended(g: seq<SchedEvent>, ev: SchedEvent)
      requires Heap(g, |g|)
      ensures forall k :: 1 <= k < |g| ==> Above(g + [ev], k)
      ensures Bridges(g + [ev], |g|, |g| + 1)
    {
      forall k | 1 <= k < |g|
        ensures Above(g + [ev], k)
      {
        assert Above(g, k);
      }
    }

    /** The smallest child of `i` is not earlier than `i`, so no child is. */
    static lemma Settled(h: seq<SchedEvent>, i: int, j: int, n: int)
      requires 0 <= i < j < n <= |h| && 2 * i + 1 < n && h[j].when >= h[i].when
      requires forall c :: 1 <= c < n && Parent(c) == i ==> h[j].when <= h[c].when
      ensures forall k :: 1 <= k < n && Parent(k) == i ==> Above(h, k)
    {
    }

    lemma DropLast(n: int)
      requires Indexed() && 0 <= n && |h| == n + 1 && Heap(h, n)
      ensures Heap(h[..n], n)
      ensures forall e :: e in h[..n] <==> e in h && e != h[n]
    {
      forall k | 1 <= k < n
        ensures Above(h[..n], k)
      {
        assert Above(h, k);
      }
      forall e | e in h && e != h[n]
        ensures e in h[..n]
      {
        var k :| 0 <= k < |h| && h[k] == e;
        assert h[..n][k] == e;
      }
    }

    static lemma SiftedUp(g: seq<SchedEvent>, h: seq<SchedEvent>, i: int, j: int, n: int)
      requires 1 <= j < n <= |g| && i == Parent(j) && h == g[i := g[j]][j := g[i]]
      requires g[j].when < g[i].when
      requires forall k :: 1 <= k < n && k != j ==> Above(g, k)
      requires Bridges(g, j, n)
      ensures forall k :: 1 <= k < n && k != i ==> Above(h, k)
      ensures Bridges(h, i, n)
    {
      forall k | 1 <= k < n && k != i
        ensures Above(h, k)
      {
        assert k != j ==> Above(g, k);
      }
      forall c | 1 <= c < n && Parent(c) == i && 1 <= i
        ensures h[Parent(i)].when <= h[c].when
      {
        assert Above(g, i);
        assert c != j ==> Above(g, c);
      }
    }

    static lemma SiftedDown(g: seq<SchedEvent>, h: seq<SchedEvent>, i0: int, i: int, j: int, n: int)
      requires 0 <= i0 <= i < j < n <= |g| && Parent(j) == i && h == g[i := g[j]][j := g[i]]
      requires g[j].when < g[i].when
      requires forall c :: 1 <= c < n && Parent(c) == i ==> g[j].when <= g[c].when
      requires forall k :: 1 <= k < n && Parent(k) != i && (k != i0 || i != i0) ==> Above(g, k)
      requires Bridges(g, i, n)
      ensures forall k :: 1 <= k < n && Parent(k) != j ==> Above(h, k)
      ensures Bridges(h, j, n)
    {
      forall k | 1 <= k < n && Parent(k) != j
        ensures Above(h, k)
      {
        assert Parent(k) != i && (k != i0 || i != i0) ==> Above(g, k);
      }
      forall c | 1 <= c < n && Parent(c) == j
        ensures h[Parent(j)].when <= h[c].when
      {
        assert Above(g, c);
      }
    }
  }
}

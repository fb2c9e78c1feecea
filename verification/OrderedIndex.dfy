/** The index shared in shape by the two stores: ids in strictly ascending order and a map from each
    id to its position (internal/infrastructure/objectstore and internal/infrastructure/datastore). */
module OrderedIndex {
  ghost predicate Ascending(ids: seq<int>) {
    forall i, j :: 0 <= i < j < |ids| ==> ids[i] < ids[j]
  }

  /** `pos` is the inverse of `ids`. */
  ghost predicate Indexed(ids: seq<int>, pos: map<int, int>) {
    && Ascending(ids)
    && (forall i :: 0 <= i < |ids| ==> ids[i] in pos && pos[ids[i]] == i)
    && (forall id :: id in pos ==> 0 <= pos[id] < |ids| && ids[pos[id]] == id)
  }

  /** Go's built-in copy(s[to:], s[from:]), which reads before it overwrites. */
  function CopyWithin<T>(s: seq<T>, to: nat, from: nat): (r: seq<T>)
    requires to <= |s| && from <= |s|
    ensures |r| == |s|
  {
    var n := if |s| - to < |s| - from then |s| - to else |s| - from;
    s[..to] + s[from..from + n] + s[to + n..]
  }

  /** sort.Search for the first id not below `id`. */
  method Search(ids: seq<int>, id: int) returns (i: nat)
    requires Ascending(ids)
    ensures i <= |ids|
    ensures forall k :: 0 <= k < i ==> ids[k] < id
    ensures forall k :: i <= k < |ids| ==> id <= ids[k]
  {
    i := 0;
    var j := |ids|;
    while i < j
      invariant 0 <= i <= j <= |ids|
      invariant forall k :: 0 <= k < i ==> ids[k] < id
      invariant forall k :: j <= k < |ids| ==> id <= ids[k]
    {
      var h := (i + j) / 2;
      if ids[h] >= id {
        j := h;
      } else {
        i := h + 1;
      }
    }
  }

  /** The insertion of both stores: grow by one, shift the tail right, write. */
  function InsertAt<T>(s: seq<T>, i: nat, filler: T, x: T): (r: seq<T>)
    requires i <= |s|
  {
    CopyWithin(s + [filler], i + 1, i)[i := x]
  }

  lemma InsertAtIs<T>(s: seq<T>, i: nat, filler: T, x: T)
    requires i <= |s|
    ensures InsertAt(s, i, filler, x) == s[..i] + [x] + s[i..]
  {
    var g := s + [filler];
    assert CopyWithin(g, i + 1, i) == g[..i + 1] + g[i..|s|] + [];
    assert g[i..|s|] == s[i..];
  }

  /** The removal of both stores: shift the tail left, shrink by one. */
  function RemoveAt<T>(s: seq<T>, i: nat): (r: seq<T>)
    requires i < |s|
  {
    CopyWithin(s, i, i + 1)[..|s| - 1]
  }

  lemma RemoveAtIs<T>(s: seq<T>, i: nat)
    requires i < |s|
    ensures RemoveAt(s, i) == s[..i] + s[i + 1..]
  {
    assert CopyWithin(s, i, i + 1) == s[..i] + s[i + 1..] + s[|s| - 1..];
  }

  lemma InsertedAscending(ids: seq<int>, i: nat, id: int)
    requires Ascending(ids) && i <= |ids|
    requires forall k :: 0 <= k < i ==> ids[k] < id
    requires forall k :: i <= k < |ids| ==> id < ids[k]
    ensures Ascending(ids[..i] + [id] + ids[i..])
  {
  }

  lemma RemovedAscending(ids: seq<int>, i: nat)
    requires Ascending(ids) && i < |ids|
    ensures Ascending(ids[..i] + ids[i + 1..])
  {
  }

  /** What Renumber promises. */
  ghost predicate Renumbered(ids: seq<int>, pos: map<int, int>, from: nat, r: map<int, int>) {
    && from <= |ids|
    && (forall k :: from <= k < |ids| ==> ids[k] in r && r[ids[k]] == k)
    && (forall id :: id in pos && id !in ids[from..] ==> id in r && r[id] == pos[id])
    && (forall id :: id in r ==> id in pos || id in ids[from..])
  }

  /** The loop of both stores that writes the positions of a shifted tail. */
  method Renumber(ids: seq<int>, pos: map<int, int>, from: nat) returns (r: map<int, int>)
    requires from <= |ids| && Ascending(ids)
    ensures Renumbered(ids, pos, from, r)
  {
    r := pos;
    var k := from;
    while k < |ids|
      invariant from <= k <= |ids|
      invariant forall m :: from <= m < k ==> ids[m] in r && r[ids[m]] == m
      invariant forall id :: id in pos && id !in ids[from..] ==> id in r && r[id] == pos[id]
      invariant forall id :: id in r ==> id in pos || id in ids[from..]
    {
      assert ids[from..][k - from] == ids[k];
      r := r[ids[k] := k];
      k := k + 1;
    }
  }

  lemma NotInTail(ids: seq<int>, from: nat, k: nat)
    requires Ascending(ids) && k < from <= |ids|
    ensures ids[k] !in ids[from..]
  {
    assert forall m :: from <= m < |ids| ==> ids[k] < ids[m];
  }

  lemma StaysPut(ids: seq<int>, pos: map<int, int>, from: nat, r: map<int, int>, id: int)
    requires Renumbered(ids, pos, from, r) && id in pos && id !in ids[from..]
    ensures id in r && r[id] == pos[id]
  {
  }

  /** After renumbering the tail, `r` inverts `ids`, provided the head was right and nothing else is known. */
  lemma RenumberedIndexed(ids: seq<int>, pos: map<int, int>, from: nat, r: map<int, int>)
    requires Ascending(ids) && Renumbered(ids, pos, from, r)
    requires forall k :: 0 <= k < from ==> ids[k] in pos && pos[ids[k]] == k
    requires forall x :: x in pos ==> x in ids
    ensures Indexed(ids, r) && forall x :: x in r <==> x in ids
  {
    forall k | 0 <= k < |ids|
      ensures ids[k] in r && r[ids[k]] == k
    {
      if k < from {
        NotInTail(ids, from, k);
        StaysPut(ids, pos, from, r, ids[k]);
      }
    }
    forall x | x in r
      ensures x in ids && 0 <= r[x] < |ids| && ids[r[x]] == x
    {
      assert x in ids[from..] ==> x in ids;
      var k :| 0 <= k < |ids| && ids[k] == x;
    }
  }

  lemma InsertedMembers(ids: seq<int>, i: nat, id: int, x: int)
    requires i <= |ids|
    ensures x in ids[..i] + [id] + ids[i..] <==> x in ids || x == id
  {
    assert ids == ids[..i] + ids[i..];
  }

  lemma RemovedMembers(ids: seq<int>, i: nat, x: int)
    requires Ascending(ids) && i < |ids|
    ensures x in ids[..i] + ids[i + 1..] <==> x in ids && x != ids[i]
  {
    assert ids == ids[..i] + [ids[i]] + ids[i + 1..];
  }

  /** The positions after an insertion. */
  lemma InsertedIndexed(ids: seq<int>, pos: map<int, int>, i: nat, id: int, ids': seq<int>, pos': map<int, int>)
    requires Indexed(ids, pos) && id !in pos && i <= |ids|
    requires forall k :: 0 <= k < i ==> ids[k] < id
    requires forall k :: i <= k < |ids| ==> id <= ids[k]
    requires ids' == ids[..i] + [id] + ids[i..] && Renumbered(ids', pos, i, pos')
    ensures Indexed(ids', pos') && pos'.Keys == pos.Keys + {id}
  {
    InsertedAscending(ids, i, id);
    forall x
      ensures x in ids' <==> x in pos || x == id
    {
      InsertedMembers(ids, i, id, x);
    }
    RenumberedIndexed(ids', pos, i, pos');
  }

  /** The positions after a removal. */
  lemma RemovedIndexed(ids: seq<int>, pos: map<int, int>, i: nat, ids': seq<int>, pos': map<int, int>)
    requires Indexed(ids, pos) && i < |ids|
    requires ids' == ids[..i] + ids[i + 1..] && Renumbered(ids', pos - {ids[i]}, i, pos')
    ensures Indexed(ids', pos') && pos'.Keys == pos.Keys - {ids[i]}
  {
    var gone := ids[i];
    RemovedAscending(ids, i);
    HeadKept(ids, pos, i);
    RemovedFrom(ids, pos, i);
    RenumberedIndexed(ids', pos - {gone}, i, pos');
    KeysWithout(pos', pos, gone);
  }

  lemma HeadKept(ids: seq<int>, pos: map<int, int>, i: nat)
    requires Indexed(ids, pos) && i < |ids|
    ensures var rest := ids[..i] + ids[i + 1..];
            forall k :: 0 <= k < i ==> rest[k] in pos - {ids[i]} && (pos - {ids[i]})[rest[k]] == k
  {
    var rest := ids[..i] + ids[i + 1..];
    forall k | 0 <= k < i
      ensures rest[k] in pos - {ids[i]} && (pos - {ids[i]})[rest[k]] == k
    {
      assert rest[k] == ids[k] && ids[k] < ids[i];
    }
  }

  lemma RemovedFrom(ids: seq<int>, pos: map<int, int>, i: nat)
    requires Indexed(ids, pos) && i < |ids|
    ensures forall x :: x in ids[..i] + ids[i + 1..] <==> x in pos && x != ids[i]
  {
    forall x
      ensures x in ids[..i] + ids[i + 1..] <==> x in pos && x != ids[i]
    {
      RemovedMembers(ids, i, x);
    }
  }

  lemma KeysWithout(a: map<int, int>, b: map<int, int>, gone: int)
    requires forall x :: x in a <==> x in b && x != gone
    ensures a.Keys == b.Keys - {gone}
  {
    assert forall x :: x in a.Keys <==> x in b.Keys - {gone};
  }
}

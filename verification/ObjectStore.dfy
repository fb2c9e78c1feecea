/** The in-memory ordered store (internal/infrastructure/objectstore/objectstore.go); `byID` is the map
    that the parallel slices and the positions stand for. */
module ObjectStores {
  import opened Wrappers
  import opened OrderedIndex

  /** The values run parallel to the ids. */
  ghost predicate Aligned<V>(ids: seq<int>, vals: seq<V>, byID: map<int, V>) {
    |vals| == |ids| && forall k :: 0 <= k < |ids| ==> ids[k] in byID && byID[ids[k]] == vals[k]
  }

  lemma AlignedOverwrite<V>(ids: seq<int>, vals: seq<V>, byID: map<int, V>, i: nat, value: V)
    requires Ascending(ids) && Aligned(ids, vals, byID) && i < |ids|
    ensures Aligned(ids, vals[i := value], byID[ids[i] := value])
  {
  }

  lemma AlignedInsert<V>(ids: seq<int>, vals: seq<V>, byID: map<int, V>, i: nat, id: int, value: V)
    requires Aligned(ids, vals, byID) && i <= |ids| && id !in ids
    ensures Aligned(ids[..i] + [id] + ids[i..], vals[..i] + [value] + vals[i..], byID[id := value])
  {
  }

  lemma AlignedRemove<V>(ids: seq<int>, vals: seq<V>, byID: map<int, V>, i: nat)
    requires Ascending(ids) && Aligned(ids, vals, byID) && i < |ids|
    ensures Aligned(ids[..i] + ids[i + 1..], vals[..i] + vals[i + 1..], byID - {ids[i]})
  {
  }

  lemma Appended(ids: seq<int>, pos: map<int, int>, id: int)
    requires Indexed(ids, pos) && (|ids| == 0 || id > ids[|ids| - 1])
    ensures Indexed(ids + [id], pos[id := |ids|]) && id !in ids
  {
  }

  class ObjectStore<V> {
    var byID: map<int, V>
    var ids: seq<int>
    var vals: seq<V>
    var pos: map<int, int>

    ghost predicate Valid()
      reads this
    {
      Indexed(ids, pos) && Aligned(ids, vals, byID) && byID.Keys == pos.Keys
    }

    constructor ()
      ensures Valid() && byID == map[]
    {
      byID, ids, vals, pos := map[], [], [], map[];
    }

    method Upsert(id: int, value: V)
      requires Valid()
      modifies this
      ensures Valid() && byID == old(byID)[id := value]
    {
      if id in pos {
        var idx := pos[id];
        AlignedOverwrite(ids, vals, byID, idx, value);
        byID := byID[id := value];
        vals := vals[idx := value];
        return;
      }
      if |ids| == 0 || id > ids[|ids| - 1] {
        Append(id, value);
        return;
      }
      InsertSorted(id, value);
    }

    /** The fast path for an id above all others. */
    method Append(id: int, value: V)
      requires Valid() && id !in pos && (|ids| == 0 || id > ids[|ids| - 1])
      modifies this
      ensures Valid() && byID == old(byID)[id := value]
    {
      Appended(ids, pos, id);
      AlignedInsert(ids, vals, byID, |ids|, id, value);
      assert ids[..|ids|] + [id] + ids[|ids|..] == ids + [id];
      assert vals[..|ids|] + [value] + vals[|ids|..] == vals + [value];
      ids := ids + [id];
      vals := vals + [value];
      byID := byID[id := value];
      pos := pos[id := |ids| - 1];
    }

    /** Binary search, overlapping shift, renumbering of the tail. */
    method InsertSorted(id: int, value: V)
      requires Valid() && id !in pos
      modifies this
      ensures Valid() && byID == old(byID)[id := value]
    {
      var i := Search(ids, id);
      assert id !in ids by {
        assert forall x :: x in ids ==> x in pos;
      }
      AlignedInsert(ids, vals, byID, i, id, value);
      Between(ids, pos, i, id);
      InsertIndex(i, id);
      InsertAtIs(vals, i, value, value);
      vals := InsertAt(vals, i, value, value);
      byID := byID[id := value];
      assert byID.Keys == pos.Keys;
    }

    /** The id enters the index at position `i`. */
    method InsertIndex(i: nat, id: int)
      requires Indexed(ids, pos) && id !in pos && i <= |ids|
      requires forall k :: 0 <= k < i ==> ids[k] < id
      requires forall k :: i <= k < |ids| ==> id <= ids[k]
      modifies this`ids, this`pos
      ensures Indexed(ids, pos) && pos.Keys == old(pos).Keys + {id}
      ensures ids == old(ids)[..i] + [id] + old(ids)[i..]
    {
      InsertAtIs(ids, i, 0, id);
      var newIds := InsertAt(ids, i, 0, id);
      InsertedAscending(ids, i, id);
      var newPos := Renumber(newIds, pos, i);
      InsertedIndexed(ids, pos, i, id, newIds, newPos);
      ids, pos := newIds, newPos;
    }

    static lemma Between(ids: seq<int>, pos: map<int, int>, i: nat, id: int)
      requires Indexed(ids, pos) && id !in pos && i <= |ids|
      requires forall k :: 0 <= k < i ==> ids[k] < id
      requires forall k :: i <= k < |ids| ==> id <= ids[k]
      ensures Ascending(ids[..i] + [id] + ids[i..])
    {
      forall k | i <= k < |ids|
        ensures id < ids[k]
      {
        assert ids[k] in pos;
      }
      InsertedAscending(ids, i, id);
    }

    method Delete(id: int)
      requires Valid()
      modifies this
      ensures Valid() && byID == old(byID) - {id}
    {
      if id !in pos {
        assert byID - {id} == byID;
        return;
      }
      var idx := pos[id];
      AlignedRemove(ids, vals, byID, idx);
      RemoveAtIs(ids, idx);
      RemoveAtIs(vals, idx);
      RemovedAscending(ids, idx);
      byID := byID - {id};
      pos := pos - {id};
      ids := RemoveAt(ids, idx);
      vals := RemoveAt(vals, idx);
      pos := Renumber(ids, pos, idx);
      RemovedIndexed(old(ids), old(pos), idx, ids, pos);
    }

    method GetOne(id: int) returns (r: Option<V>)
      requires Valid()
      ensures r == if id in byID then Some(byID[id]) else None
    {
      r := if id in byID then Some(byID[id]) else None;
    }

    /** Values aligned with the ids asked for, and whether all were there. */
    method GetMany(wanted: seq<int>) returns (out: seq<Option<V>>, all: bool)
      requires Valid()
      ensures |out| == |wanted|
      ensures forall i :: 0 <= i < |wanted| ==> out[i] == if wanted[i] in byID then Some(byID[wanted[i]]) else None
      ensures all <==> forall i :: 0 <= i < |wanted| ==> wanted[i] in byID
    {
      out, all := [], true;
      var i := 0;
      while i < |wanted|
        invariant 0 <= i <= |wanted| && |out| == i
        invariant forall k :: 0 <= k < i ==> out[k] == if wanted[k] in byID then Some(byID[wanted[k]]) else None
        invariant all <==> forall k :: 0 <= k < i ==> wanted[k] in byID
      {
        if wanted[i] in byID {
          out := out + [Some(byID[wanted[i]])];
        } else {
          all := false;
          out := out + [None];
        }
        i := i + 1;
      }
    }

    /** The whole map in key order. */
    method GetList() returns (idsOut: seq<int>, valsOut: seq<V>)
      requires Valid()
      ensures Ascending(idsOut) && Aligned(idsOut, valsOut, byID)
      ensures forall id :: id in byID <==> id in idsOut
    {
      forall id | id in byID
        ensures id in ids
      {
        assert ids[pos[id]] == id;
      }
      return ids, vals;
    }
  }
}

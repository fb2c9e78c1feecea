/** The persistent store (internal/infrastructure/datastore/datastore.go): an in-process index of ids over
    records and a sequence counter that live in Redis.  A command to Redis may fail, which is a
    parameter here, and then has no effect there; records may also vanish behind the store's back. */
module DataStores {
  import opened Wrappers
  import opened OrderedIndex
  import Sets

  datatype Outcome<T> = Ok(value: T) | NotFound | CommandFailed

  /** What SCAN yields for these records: every key once, in some order. */
  method Scan<Bytes>(records: map<int, Bytes>) returns (scanned: seq<Option<int>>)
    ensures forall id :: id in records <==> Some(id) in scanned
    ensures forall i, j :: 0 <= i < j < |scanned| ==> scanned[i] != scanned[j]
  {
    scanned := [];
    var left := records.Keys;
    while left != {}
      invariant left <= records.Keys
      invariant forall id :: Some(id) in scanned <==> id in records && id !in left
      invariant forall i, j :: 0 <= i < j < |scanned| ==> scanned[i] != scanned[j]
      decreases |left|
    {
      ghost var some := Sets.Element(left);
      var id: int :| id in left;
      scanned := scanned + [Some(id)];
      left := left - {id};
    }
    assert forall id :: id in records ==> id !in left;
  }

  /** The ids among the keys scanned, in order; keys that are no ids are skipped. */
  method SortedIds(scanned: seq<Option<int>>) returns (sorted: seq<int>)
    requires forall i, j :: 0 <= i < j < |scanned| && scanned[i].Some? ==> scanned[i] != scanned[j]
    ensures Ascending(sorted) && forall id :: id in sorted <==> Some(id) in scanned && id > 0
  {
    var found: seq<int> := [];
    var k := 0;
    while k < |scanned|
      invariant 0 <= k <= |scanned|
      invariant forall id :: id in found <==> Some(id) in scanned[..k] && id > 0
      invariant forall i, j :: 0 <= i < j < |found| ==> found[i] != found[j]
    {
      NextScanned(scanned, k);
      if scanned[k].Some? && scanned[k].value > 0 {
        assert scanned[k].value !in found;
        found := found + [scanned[k].value];
      }
      k := k + 1;
    }
    assert scanned[..k] == scanned;
    sorted := SortIds(found);
  }

  lemma NextScanned(scanned: seq<Option<int>>, k: nat)
    requires k < |scanned|
    requires forall i, j :: 0 <= i < j < |scanned| && scanned[i].Some? ==> scanned[i] != scanned[j]
    ensures forall x :: x in scanned[..k + 1] <==> x in scanned[..k] || x == scanned[k]
    ensures scanned[k].Some? ==> scanned[k] !in scanned[..k]
  {
    assert scanned[..k + 1] == scanned[..k] + [scanned[k]];
  }

  method PositionsOf(sorted: seq<int>) returns (pos: map<int, int>)
    requires Ascending(sorted)
    ensures Indexed(sorted, pos) && forall id :: id in pos <==> id in sorted
  {
    pos := Renumber(sorted, map[], 0);
    assert sorted[0..] == sorted;
    RenumberedIndexed(sorted, map[], 0, pos);
  }

  class DataStore<Bytes(==)> {
    var records: map<int, Bytes>   // in Redis
    var sequence: int              // in Redis
    var ids: seq<int>
    var pos: map<int, int>

    /** The index is ordered, every record is indexed, and the counter is at or above every id. */
    ghost predicate Valid()
      reads this
    {
      && Indexed(ids, pos)
      && (forall id :: id in records ==> id in pos) && sequence >= 0
      && forall id :: id in pos ==> 0 < id <= sequence
    }

    /** A restart over what Redis holds.  `scanned` is what SCAN yields, one entry a key: the id, or
        `None` for a key whose suffix is not a number. */
    constructor Reconcile(records: map<int, Bytes>, sequence: int, scanned: seq<Option<int>>)
      requires forall id :: id in records ==> id > 0
      requires forall id :: id in records <==> Some(id) in scanned && id > 0
      requires forall i, j :: 0 <= i < j < |scanned| && scanned[i].Some? ==> scanned[i] != scanned[j]
      ensures Valid() && this.records == records && pos.Keys == records.Keys
      ensures this.sequence >= sequence
      ensures this.sequence > sequence ==> this.sequence == 0 || this.sequence in records
    {
      var sorted := SortedIds(scanned);
      var newPos := PositionsOf(sorted);
      var maxID := if |sorted| > 0 then sorted[|sorted| - 1] else 0;
      assert forall id :: id in newPos <==> id in records;
      this.records := records;
      this.sequence := if sequence < maxID then maxID else sequence;
      this.ids, this.pos := sorted, newPos;
      new;
      assert pos.Keys == records.Keys;
    }

    /** Records deleted by somebody else. */
    method Vanish(gone: set<int>)
      requires Valid()
      modifies this`records
      ensures Valid() && records == old(records) - gone
    {
      records := records - gone;
    }

    /** INCR, SET, then the index.  A new record never lands on an existing id. */
    method Create(value: Bytes, incrOk: bool, setOk: bool) returns (r: Outcome<int>)
      requires Valid()
      modifies this
      ensures Valid()
      ensures r.Ok? <==> incrOk && setOk
      ensures r.Ok? ==> r.value !in old(pos) && r.value > old(sequence) && records == old(records)[r.value := value]
      ensures r.Ok? ==> pos.Keys == old(pos).Keys + {r.value} && sequence == r.value
      ensures !r.Ok? ==> r.CommandFailed? && records == old(records) && ids == old(ids) && pos == old(pos)
      ensures sequence == if incrOk then old(sequence) + 1 else old(sequence)
    {
      if !incrOk {
        return CommandFailed;
      }
      sequence := sequence + 1;
      if !setOk {
        return CommandFailed;
      }
      records := records[sequence := value];
      IndexInsert(sequence);
      return Ok(sequence);
    }

    method Update(id: int, value: Bytes, setOk: bool) returns (r: Outcome<()>)
      requires Valid()
      modifies this`records
      ensures Valid()
      ensures r.NotFound? <==> id !in pos
      ensures r.Ok? <==> id in pos && setOk
      ensures r.Ok? ==> records == old(records)[id := value]
      ensures !r.Ok? ==> records == old(records)
    {
      if id !in pos {
        return NotFound;
      }
      if !setOk {
        return CommandFailed;
      }
      records := records[id := value];
      return Ok(());
    }

    method Delete(id: int, delOk: bool) returns (r: Outcome<()>)
      requires Valid()
      modifies this`records, this`ids, this`pos
      ensures Valid()
      ensures r.Ok? <==> delOk
      ensures r.Ok? ==> records == old(records) - {id} && pos.Keys == old(pos).Keys - {id}
      ensures !r.Ok? ==> records == old(records) && ids == old(ids) && pos == old(pos)
    {
      if !delOk {
        return CommandFailed;
      }
      records := records - {id};
      if id in pos {
        IndexRemoveAt(pos[id]);
      }
      return Ok(());
    }

    /** An indexed id whose record is gone is dropped from the index. */
    method GetOne(id: int, getOk: bool) returns (r: Outcome<Bytes>)
      requires Valid()
      modifies this`ids, this`pos
      ensures Valid()
      ensures id !in old(pos) ==> r.NotFound?
      ensures id in old(pos) && !getOk ==> r.CommandFailed?
      ensures id in old(pos) && getOk ==> r == if id in records then Ok(records[id]) else NotFound
      ensures pos.Keys == if id in old(pos) && getOk && id !in records then old(pos).Keys - {id} else old(pos).Keys
    {
      if id !in pos {
        return NotFound;
      }
      if !getOk {
        return CommandFailed;
      }
      if id !in records {
        IndexRemoveAt(pos[id]);
        return NotFound;
      }
      return Ok(records[id]);
    }

    /** Values aligned with the ids asked for; ids that are indexed but gone are dropped from the index. */
    method GetMany(wanted: seq<int>, mgetOk: bool) returns (r: Outcome<seq<Option<Bytes>>>)
      requires Valid()
      modifies this`ids, this`pos
      ensures Valid()
      ensures r.CommandFailed? <==> !mgetOk && exists k :: 0 <= k < |wanted| && wanted[k] in old(pos)
      ensures r.CommandFailed? ==> ids == old(ids) && pos == old(pos)
      ensures r.Ok? ==> |r.value| == |wanted|
      ensures r.Ok? ==> forall i :: 0 <= i < |wanted| ==> r.value[i] == Stored(wanted[i])
      ensures r.Ok? ==> forall id :: id in pos <==> id in old(pos) && (id in wanted ==> id in records)
      ensures !r.NotFound?
    {
      var anyPresent := AnyIndexed(wanted);
      if anyPresent && !mgetOk {
        return CommandFailed;
      }
      var out := FetchAll(wanted);
      return Ok(out);
    }

    method AnyIndexed(wanted: seq<int>) returns (r: bool)
      ensures r <==> exists k :: 0 <= k < |wanted| && wanted[k] in pos
    {
      r := false;
      var i := 0;
      while i < |wanted|
        invariant 0 <= i <= |wanted|
        invariant r <==> exists k :: 0 <= k < i && wanted[k] in pos
      {
        if wanted[i] in pos {
          r := true;
        }
        i := i + 1;
      }
    }

    /** One record, healing the index when it is gone. */
    method Fetch(id: int) returns (r: Option<Bytes>)
      requires Valid()
      modifies this`ids, this`pos
      ensures Valid() && r == Stored(id)
      ensures forall x :: x in pos <==> x in old(pos) && (x == id ==> id in records)
    {
      if id !in pos {
        return None;
      }
      if id !in records {
        assert ids[pos[id]] == id;
        IndexRemoveAt(pos[id]);
        return None;
      }
      return Some(records[id]);
    }

    method FetchAll(wanted: seq<int>) returns (out: seq<Option<Bytes>>)
      requires Valid()
      modifies this`ids, this`pos
      ensures Valid() && |out| == |wanted|
      ensures forall i :: 0 <= i < |wanted| ==> out[i] == Stored(wanted[i])
      ensures forall id :: id in pos <==> id in old(pos) && (id in wanted ==> id in records)
    {
      out := [];
      var i := 0;
      while i < |wanted|
        invariant 0 <= i <= |wanted| && |out| == i && Valid()
        invariant forall k :: 0 <= k < i ==> out[k] == Stored(wanted[k])
        invariant forall id :: id in pos <==> id in old(pos) && (id in wanted[..i] ==> id in records)
      {
        var v := Fetch(wanted[i]);
        NextMember(wanted, i);
        out := out + [v];
        i := i + 1;
      }
      assert wanted[..i] == wanted;
    }

    static lemma NextMember(q: seq<int>, i: nat)
      requires i < |q|
      ensures forall x :: x in q[..i + 1] <==> x in q[..i] || x == q[i]
    {
      assert q[..i + 1] == q[..i] + [q[i]];
    }

    ghost function Stored(id: int): (r: Option<Bytes>)
      reads this
    {
      if id in records then Some(records[id]) else None
    }

    /** Everything, in id order; afterwards the index is exactly the surviving ids. */
    method GetList(mgetOk: bool) returns (r: Outcome<(seq<int>, seq<Bytes>)>)
      requires Valid()
      modifies this`ids, this`pos
      ensures Valid() && !r.NotFound?
      ensures r.CommandFailed? <==> !mgetOk && old(ids) != []
      ensures r.CommandFailed? ==> ids == old(ids) && pos == old(pos)
      ensures r.Ok? ==> pos.Keys == records.Keys
      ensures r.Ok? ==> Ascending(r.value.0) && |r.value.1| == |r.value.0|
      ensures r.Ok? ==> forall id :: id in records <==> id in r.value.0
      ensures r.Ok? ==> forall i :: 0 <= i < |r.value.0| ==>
                r.value.0[i] in records && records[r.value.0[i]] == r.value.1[i]
    {
      if |ids| == 0 {
        assert forall id :: id in pos <==> id in records;
        assert pos.Keys == records.Keys;
        return Ok(([], []));
      }
      if !mgetOk {
        return CommandFailed;
      }
      var idsOut, valsOut, toRemove := Collect();
      RemoveAll(toRemove);
      forall id
        ensures id in pos <==> id in records
      {
        assert id in old(pos) ==> old(ids)[old(pos)[id]] == id;
      }
      assert pos.Keys == records.Keys;
      return Ok((idsOut, valsOut));
    }

    /** One pass over the index: what is there, and the positions of what is gone. */
    method Collect() returns (idsOut: seq<int>, valsOut: seq<Bytes>, toRemove: seq<nat>)
      requires Valid()
      ensures Ascending(idsOut) && |valsOut| == |idsOut|
      ensures forall id :: id in records <==> id in idsOut
      ensures forall i :: 0 <= i < |idsOut| ==> idsOut[i] in records && records[idsOut[i]] == valsOut[i]
      ensures Positions(toRemove, |ids|)
      ensures forall k :: 0 <= k < |ids| ==> (k in toRemove <==> ids[k] !in records)
    {
      idsOut, valsOut, toRemove := [], [], [];
      var i := 0;
      while i < |ids|
        invariant 0 <= i <= |ids| && Present(ids, records, i, idsOut, valsOut) && Gone(ids, records, i, toRemove)
      {
        if ids[i] in records {
          PresentMore(ids, records, i, idsOut, valsOut);
          GoneMore(ids, records, i, toRemove);
          idsOut := idsOut + [ids[i]];
          valsOut := valsOut + [records[ids[i]]];
        } else {
          PresentSkip(ids, records, i, idsOut, valsOut);
          GoneMore(ids, records, i, toRemove);
          toRemove := toRemove + [i];
        }
        i := i + 1;
      }
      forall id | id in records
        ensures id in idsOut
      {
        assert id in pos && ids[pos[id]] == id;
      }
    }

    /** The first `i` ids that have a record, with their records. */
    static ghost predicate Present(ids: seq<int>, records: map<int, Bytes>, i: nat, idsOut: seq<int>,
                                   valsOut: seq<Bytes>) {
      && i <= |ids| && |valsOut| == |idsOut| && Ascending(idsOut)
      && (forall k :: 0 <= k < |idsOut| ==>
          idsOut[k] in ids[..i] && idsOut[k] in records && records[idsOut[k]] == valsOut[k])
      && (forall k :: 0 <= k < i && ids[k] in records ==> ids[k] in idsOut)
    }

    /** The positions below `i` whose record is gone. */
    static ghost predicate Gone(ids: seq<int>, records: map<int, Bytes>, i: nat, toRemove: seq<nat>) {
      i <= |ids| && Positions(toRemove, i) && forall k :: 0 <= k < i ==> (k in toRemove <==> ids[k] !in records)
    }

    static lemma GoneMore(ids: seq<int>, records: map<int, Bytes>, i: nat, toRemove: seq<nat>)
      requires i < |ids| && Gone(ids, records, i, toRemove)
      ensures Gone(ids, records, i + 1, if ids[i] in records then toRemove else toRemove + [i])
    {
    }

    static lemma PresentSkip(ids: seq<int>, records: map<int, Bytes>, i: nat, idsOut: seq<int>, valsOut: seq<Bytes>)
      requires i < |ids| && ids[i] !in records && Present(ids, records, i, idsOut, valsOut)
      ensures Present(ids, records, i + 1, idsOut, valsOut)
    {
      assert ids[..i + 1] == ids[..i] + [ids[i]];
    }

    static lemma PresentMore(ids: seq<int>, records: map<int, Bytes>, i: nat, idsOut: seq<int>, valsOut: seq<Bytes>)
      requires i < |ids| && Ascending(ids) && ids[i] in records && Present(ids, records, i, idsOut, valsOut)
      ensures Present(ids, records, i + 1, idsOut + [ids[i]], valsOut + [records[ids[i]]])
    {
      assert ids[..i + 1] == ids[..i] + [ids[i]];
      assert forall k :: 0 <= k < |idsOut| ==> idsOut[k] < ids[i] by {
        assert forall x :: x in ids[..i] ==> x < ids[i];
      }
      assert forall k :: 0 <= k < i && ids[k] in records ==> ids[k] in idsOut + [ids[i]];
    }

    /** Ascending positions below `n`. */
    static ghost predicate Positions(p: seq<nat>, n: nat) {
      && (forall i :: 0 <= i < |p| ==> p[i] < n)
      && (forall i, j :: 0 <= i < j < |p| ==> p[i] < p[j])
    }

    /** The first `n` ids are still where they were. */
    ghost predicate HeadKept(was: seq<int>, n: int)
      reads this
    {
      n <= |ids| && n <= |was| && forall k :: 0 <= k < n ==> ids[k] == was[k]
    }

    static lemma LastMember(p: seq<nat>, i: nat)
      requires 0 < i <= |p|
      ensures forall x :: x in p[i - 1..] <==> x == p[i - 1] || x in p[i..]
    {
      assert p[i - 1..] == [p[i - 1]] + p[i..];
    }

    /** Back to front, so that the positions still to be removed stay right. */
    method RemoveAll(toRemove: seq<nat>)
      requires Valid() && Positions(toRemove, |ids|)
      requires forall k :: k in toRemove ==> ids[k] !in records
      modifies this`ids, this`pos
      ensures Valid()
      ensures forall id :: id in pos <==> id in old(pos) && old(pos)[id] !in toRemove
    {
      var i := |toRemove|;
      while i > 0
        invariant 0 <= i <= |toRemove| && Valid()
        invariant HeadKept(old(ids), if i < |toRemove| then toRemove[i] else |old(ids)|)
        invariant forall id :: id in pos <==> id in old(pos) && old(pos)[id] !in toRemove[i..]
      {
        LastMember(toRemove, i);
        i := i - 1;
        assert toRemove[i] in toRemove;
        RemoveGone(toRemove[i], old(ids));
      }
      assert toRemove[0..] == toRemove;
    }

    /** Drops the id at `p`, whose record is gone. */
    method RemoveGone(p: nat, ghost was: seq<int>)
      requires Valid() && p < |ids| && p < |was| && HeadKept(was, p + 1) && ids[p] !in records
      modifies this`ids, this`pos
      ensures Valid() && HeadKept(was, p)
      ensures forall id :: id in pos <==> id in old(pos) && id != was[p]
    {
      IndexRemoveAt(p);
    }

    method IndexInsert(id: int)
      requires Indexed(ids, pos)
      modifies this`ids, this`pos
      ensures Indexed(ids, pos) && pos.Keys == old(pos).Keys + {id}
    {
      if id in pos {
        assert pos.Keys == pos.Keys + {id};
        return;
      }
      var i := Search(ids, id);
      if i == |ids| {
        ids := ids + [id];
        pos := pos[id := i];
        return;
      }
      if ids[i] == id {
        assert false;
      }
      InsertAtIs(ids, i, 0, id);
      InsertedAscending(ids, i, id);
      ids := InsertAt(ids, i, 0, id);
      pos := Renumber(ids, pos, i);
      InsertedIndexed(old(ids), old(pos), i, id, ids, pos);
    }

    method IndexRemoveAt(i: nat)
      requires Indexed(ids, pos) && i < |ids|
      modifies this`ids, this`pos
      ensures Indexed(ids, pos) && pos.Keys == old(pos).Keys - {old(ids)[i]}
      ensures ids == old(ids)[..i] + old(ids)[i + 1..]
    {
      var id := ids[i];
      RemoveAtIs(ids, i);
      RemovedAscending(ids, i);
      ids := RemoveAt(ids, i);
      pos := pos - {id};
      pos := Renumber(ids, pos, i);
      RemovedIndexed(old(ids), old(pos), i, ids, pos);
    }
  }

  /** Ascending order of distinct ids (sort.Slice). */
  method SortIds(found: seq<int>) returns (sorted: seq<int>)
    requires forall i, j :: 0 <= i < j < |found| ==> found[i] != found[j]
    ensures Ascending(sorted)
    ensures forall id :: id in sorted <==> id in found
  {
    sorted := [];
    var k := 0;
    while k < |found|
      invariant 0 <= k <= |found| && Ascending(sorted)
      invariant forall id :: id in sorted <==> id in found[..k]
    {
      var id := found[k];
      assert found[..k + 1] == found[..k] + [id];
      assert id !in sorted;
      var i := Search(sorted, id);
      assert forall m :: i <= m < |sorted| ==> sorted[m] in sorted;
      InsertedAscending(sorted, i, id);
      forall x
        ensures x in sorted[..i] + [id] + sorted[i..] <==> x in sorted || x == id
      {
        InsertedMembers(sorted, i, id, x);
      }
      sorted := sorted[..i] + [id] + sorted[i..];
      k := k + 1;
    }
    assert found[..k] == found;
  }
}

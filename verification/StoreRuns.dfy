/** Whole runs of the persistent store: calls, failing commands, records that vanish, and restarts. */
module StoreRuns {
  import opened Wrappers
  import opened OrderedIndex
  import opened DataStores

  datatype Call<Bytes> =
    | Create(value: Bytes, incrOk: bool, setOk: bool)
    | Update(id: int, value: Bytes, ok: bool)
    | Delete(id: int, ok: bool)
    | GetOne(id: int, ok: bool)
    | GetMany(ids: seq<int>, ok: bool)
    | GetList(ok: bool)
    | Vanish(gone: set<int>)   // somebody else deletes records
    | Restart

  // ---- What the calls do, on values ----

  /** The store's records, the ids its index holds, and the sequence counter. */
  datatype Snapshot<Bytes> = Snapshot(records: map<int, Bytes>, indexed: set<int>, sequence: int)

  /** What happened to the records. */
  datatype Change<Bytes> = Wrote(id: int, value: Bytes) | Erased(gone: set<int>)

  /** The calls that hand out an id. */
  predicate Issues<Bytes>(call: Call<Bytes>) {
    call.Create? && call.incrOk && call.setOk
  }

  function NewId<Bytes>(s: Snapshot<Bytes>): (r: int) {
    s.sequence + 1
  }

  function ChangeOf<Bytes>(s: Snapshot<Bytes>, call: Call<Bytes>): (r: Change<Bytes>) {
    match call
    case Create(value, incrOk, setOk) => if incrOk && setOk then Wrote(NewId(s), value) else Erased({})
    case Update(id, value, ok) => if id in s.indexed && ok then Wrote(id, value) else Erased({})
    case Delete(id, ok) => Erased(if ok then {id} else {})
    case Vanish(gone) => Erased(gone)
    case _ => Erased({})
  }

  function Changed<Bytes>(records: map<int, Bytes>, c: Change<Bytes>): (r: map<int, Bytes>) {
    match c
    case Wrote(id, value) => records[id := value]
    case Erased(gone) => records - gone
  }

  /** The index without the ids that were looked for and have no record. */
  function Healed<Bytes>(s: Snapshot<Bytes>, wanted: set<int>): (r: set<int>) {
    s.indexed - (wanted - s.records.Keys)
  }

  function IndexAfter<Bytes>(s: Snapshot<Bytes>, call: Call<Bytes>): (r: set<int>) {
    match call
    case Create(_, incrOk, setOk) => if incrOk && setOk then s.indexed + {NewId(s)} else s.indexed
    case Update(_, _, _) => s.indexed
    case Delete(id, ok) => if ok then s.indexed - {id} else s.indexed
    case GetOne(id, ok) => if ok then Healed(s, {id}) else s.indexed
    case GetMany(ids, ok) => if ok then Healed(s, set id | id in ids) else s.indexed
    case GetList(ok) => if ok then s.records.Keys else s.indexed
    case Vanish(_) => s.indexed
    case Restart => s.records.Keys
  }

  function Next<Bytes>(s: Snapshot<Bytes>, call: Call<Bytes>): (r: Snapshot<Bytes>) {
    Snapshot(Changed(s.records, ChangeOf(s, call)), IndexAfter(s, call),
             s.sequence + if call.Create? && call.incrOk then 1 else 0)
  }

  // ---- Runs, on values ----

  /** Every record is indexed, and no id is above the counter. */
  ghost predicate Good<Bytes>(s: Snapshot<Bytes>) {
    && s.sequence >= 0
    && (forall id :: id in s.records ==> id in s.indexed)
    && forall id :: id in s.indexed ==> 0 < id <= s.sequence
  }

  /** The snapshots before and after each call. */
  ghost predicate Trace<Bytes>(states: seq<Snapshot<Bytes>>, calls: seq<Call<Bytes>>) {
    && |states| == |calls| + 1 && Good(states[0])
    && forall k :: 0 <= k < |calls| ==> states[k + 1] == Next(states[k], calls[k])
  }

  /** The counter never falls, and every snapshot is good. */
  lemma {:induction false} TraceAscends<Bytes>(states: seq<Snapshot<Bytes>>, calls: seq<Call<Bytes>>, j: nat, k: nat)
    requires Trace(states, calls) && j <= k < |states|
    ensures Good(states[k]) && states[j].sequence <= states[k].sequence
    decreases k
  {
    if k > 0 {
      TraceAscends(states, calls, if j < k then j else j - 1, k - 1);
      assert states[k] == Next(states[k - 1], calls[k - 1]);
    }
  }

  /** No id is handed out twice: a later one is above all earlier ones. */
  lemma NoIdTwice<Bytes>(states: seq<Snapshot<Bytes>>, calls: seq<Call<Bytes>>, j: nat, k: nat)
    requires Trace(states, calls) && j < k < |calls| && Issues(calls[j])
    ensures NewId(states[j]) < NewId(states[k])
  {
    assert states[j + 1] == Next(states[j], calls[j]);
    TraceAscends(states, calls, j + 1, k);
  }

  /** No creation overwrites a record, or takes an id that the index still holds. */
  lemma CreationIsFresh<Bytes>(states: seq<Snapshot<Bytes>>, calls: seq<Call<Bytes>>, k: nat)
    requires Trace(states, calls) && k < |calls| && Issues(calls[k])
    ensures NewId(states[k]) !in states[k].records && NewId(states[k]) !in states[k].indexed
    ensures states[0].sequence < NewId(states[k]) <= states[|calls|].sequence
  {
    TraceAscends(states, calls, 0, k);
    assert states[k + 1] == Next(states[k], calls[k]);
    TraceAscends(states, calls, k + 1, |calls|);
  }

  /** Whether a call other than a creation is about this record. */
  predicate Touches<Bytes>(call: Call<Bytes>, id: int) {
    (call.Update? && call.id == id) || (call.Delete? && call.id == id) || (call.Vanish? && id in call.gone)
  }

  /** A record stays as it was created until a call that names it; later creations never disturb it. */
  lemma {:induction false} CreatedStays<Bytes>(states: seq<Snapshot<Bytes>>, calls: seq<Call<Bytes>>, i: nat, k: nat)
    requires Trace(states, calls) && i < k <= |calls| && Issues(calls[i])
    requires forall j :: i < j < k ==> !Touches(calls[j], NewId(states[i]))
    ensures NewId(states[i]) in states[k].records && states[k].records[NewId(states[i])] == calls[i].value
    decreases k
  {
    assert states[k] == Next(states[k - 1], calls[k - 1]);
    if i < k - 1 {
      CreatedStays(states, calls, i, k - 1);
      NoIdTwice(states, calls, i, k - 1);
    }
  }

  function Replay<Bytes>(records: map<int, Bytes>, log: seq<Change<Bytes>>): (r: map<int, Bytes>) {
    if log == [] then records
    else
      var last := |log| - 1;
      Changed(Replay(records, log[..last]), log[last])
  }

  /** The changes of the first `n` calls. */
  ghost function Log<Bytes>(states: seq<Snapshot<Bytes>>, calls: seq<Call<Bytes>>, n: nat): (r: seq<Change<Bytes>>)
    requires n <= |calls| && n < |states|
    ensures |r| == n
  {
    if n == 0 then [] else Log(states, calls, n - 1) + [ChangeOf(states[n - 1], calls[n - 1])]
  }

  /** The records are the replay of the changes that the calls amount to. */
  lemma {:induction false} RecordsAreReplay<Bytes>(states: seq<Snapshot<Bytes>>, calls: seq<Call<Bytes>>, n: nat)
    requires Trace(states, calls) && n <= |calls|
    ensures states[n].records == Replay(states[0].records, Log(states, calls, n))
    decreases n
  {
    if n > 0 {
      RecordsAreReplay(states, calls, n - 1);
      assert states[n] == Next(states[n - 1], calls[n - 1]);
      var log := Log(states, calls, n);
      assert log[..n - 1] == Log(states, calls, n - 1);
    }
  }

  // ---- The store itself ----

  ghost function Look<Bytes>(ds: DataStore<Bytes>): (r: Snapshot<Bytes>)
    reads ds
  {
    Snapshot(ds.records, ds.pos.Keys, ds.sequence)
  }

  /** The index over the same records and counter, built anew. */
  method Reopen<Bytes>(ds: DataStore<Bytes>) returns (d: DataStore<Bytes>)
    requires ds.Valid()
    ensures fresh(d) && d.Valid() && d.records == ds.records && d.pos.Keys == d.records.Keys
    ensures d.sequence == ds.sequence
  {
    forall id | id in ds.records
      ensures id > 0
    {
      assert id in ds.pos;
    }
    var scanned := Scan(ds.records);
    d := new DataStore<Bytes>.Reconcile(ds.records, ds.sequence, scanned);
  }

  method PerformWrite<Bytes>(ds: DataStore<Bytes>, call: Call<Bytes>)
    requires ds.Valid() && (call.Create? || call.Update? || call.Delete? || call.Vanish?)
    modifies ds
    ensures ds.Valid() && Look(ds) == Next(old(Look(ds)), call)
  {
    NothingErased(ds.records);
    match call {
      case Create(value, incrOk, setOk) =>
        var _ := ds.Create(value, incrOk, setOk);
      case Update(id, value, ok) =>
        var _ := ds.Update(id, value, ok);
      case Delete(id, ok) =>
        var _ := ds.Delete(id, ok);
      case Vanish(gone) =>
        ds.Vanish(gone);
    }
  }

  /** Reads change no record; they drop from the index what they found to be gone. */
  method PerformRead<Bytes>(ds: DataStore<Bytes>, call: Call<Bytes>)
    requires ds.Valid() && (call.GetOne? || call.GetMany? || call.GetList?)
    modifies ds`ids, ds`pos
    ensures ds.Valid() && Look(ds) == Next(old(Look(ds)), call)
    ensures ds.pos.Keys <= old(ds.pos).Keys
    ensures call.GetOne? && call.ok && call.id !in ds.records ==> call.id !in ds.pos
    ensures call.GetMany? && call.ok ==> forall id :: id in call.ids && id !in ds.records ==> id !in ds.pos
    ensures call.GetList? && call.ok ==> ds.pos.Keys == ds.records.Keys
  {
    NothingErased(ds.records);
    match call {
      case GetOne(id, ok) =>
        var _ := ds.GetOne(id, ok);
      case GetMany(ids, ok) =>
        ReadMany(ds, ids, ok);
        assert ok ==> forall id :: id in ids && id !in ds.records ==> id !in ds.pos.Keys;
      case GetList(ok) =>
        ReadList(ds, ok);
        assert forall id :: id in ds.records.Keys ==> id in old(ds.pos).Keys;
    }
  }

  method ReadMany<Bytes>(ds: DataStore<Bytes>, ids: seq<int>, ok: bool)
    requires ds.Valid()
    modifies ds`ids, ds`pos
    ensures ds.Valid()
    ensures ds.pos.Keys == if ok then Healed(old(Look(ds)), set id | id in ids) else old(ds.pos).Keys
  {
    var r := ds.GetMany(ids, ok);
    if r.Ok? {
      ghost var had, has := old(ds.pos).Keys, ds.records.Keys;
      assert forall id :: id in ds.pos.Keys <==> id in had && (id in ids ==> id in has);
      KeysHealed(had, has, ids, ok, ds.pos.Keys);
    }
  }

  lemma KeysHealed(had: set<int>, has: set<int>, ids: seq<int>, ok: bool, now: set<int>)
    requires forall id :: id in now <==> id in had && (id in ids ==> id in has)
    requires ok || forall k :: 0 <= k < |ids| ==> ids[k] !in had
    ensures now == if ok then had - ((set id | id in ids) - has) else had
  {
    var healed := had - ((set id | id in ids) - has);
    assert forall id :: id in healed <==> id in now;
    if !ok {
      assert forall id :: id in ids ==> id !in had;
      assert forall id :: id in now <==> id in had;
    }
  }

  method ReadList<Bytes>(ds: DataStore<Bytes>, ok: bool)
    requires ds.Valid()
    modifies ds`ids, ds`pos
    ensures ds.Valid()
    ensures ds.pos.Keys == if ok then ds.records.Keys else old(ds.pos).Keys
  {
    if ds.ids == [] {
      EmptyIndex(ds.ids, ds.pos, ds.records);
    }
    var _ := ds.GetList(ok);
  }

  lemma EmptyIndex<Bytes>(ids: seq<int>, pos: map<int, int>, records: map<int, Bytes>)
    requires Indexed(ids, pos) && ids == [] && forall id :: id in records ==> id in pos
    ensures pos.Keys == records.Keys
  {
    assert forall id :: id in pos.Keys <==> id in records.Keys;
  }

  lemma NothingErased<Bytes>(records: map<int, Bytes>)
    ensures records - {} == records
  {
  }

  /** Every call does to the store what it does on values; a restart makes a new store. */
  method Perform<Bytes>(ds: DataStore<Bytes>, call: Call<Bytes>) returns (d: DataStore<Bytes>)
    requires ds.Valid()
    modifies ds
    ensures d.Valid() && (d == ds || fresh(d)) && Look(d) == Next(old(Look(ds)), call)
  {
    d := ds;
    if call.Create? || call.Update? || call.Delete? || call.Vanish? {
      PerformWrite(ds, call);
    } else if call.Restart? {
      NothingErased(ds.records);
      d := Reopen(ds);
    } else {
      PerformRead(ds, call);
    }
  }

  /** Any run, with the snapshots it went through: the ids handed out strictly ascend from above everything
      before, so none is handed out twice; no creation lands on a record; and the records are the replay of
      what the calls amount to. */
  method Serve<Bytes>(ds: DataStore<Bytes>, calls: seq<Call<Bytes>>)
    returns (d: DataStore<Bytes>, ghost states: seq<Snapshot<Bytes>>)
    requires ds.Valid()
    modifies ds
    ensures d.Valid() && Trace(states, calls)
    ensures states[0] == old(Look(ds)) && states[|calls|] == Look(d)
    ensures forall j, k :: 0 <= j < k < |calls| && Issues(calls[j]) && Issues(calls[k]) ==>
              NewId(states[j]) < NewId(states[k])
    ensures forall k :: 0 <= k < |calls| && Issues(calls[k]) ==>
              NewId(states[k]) !in states[k].records && old(ds.sequence) < NewId(states[k]) <= d.sequence
    ensures d.records == Replay(old(ds.records), Log(states, calls, |calls|))
  {
    d, states := Walk(ds, calls);
    forall j, k | 0 <= j < k < |calls| && Issues(calls[j])
      ensures NewId(states[j]) < NewId(states[k])
    {
      NoIdTwice(states, calls, j, k);
    }
    forall k | 0 <= k < |calls| && Issues(calls[k])
      ensures NewId(states[k]) !in states[k].records && old(ds.sequence) < NewId(states[k]) <= d.sequence
    {
      CreationIsFresh(states, calls, k);
    }
    RecordsAreReplay(states, calls, |calls|);
  }

  method Walk<Bytes>(ds: DataStore<Bytes>, calls: seq<Call<Bytes>>)
    returns (d: DataStore<Bytes>, ghost states: seq<Snapshot<Bytes>>)
    requires ds.Valid()
    modifies ds
    ensures d.Valid() && Trace(states, calls)
    ensures states[0] == old(Look(ds)) && states[|calls|] == Look(d)
  {
    d, states := ds, [Look(ds)];
    var i := 0;
    while i < |calls|
      invariant 0 <= i <= |calls| && d.Valid() && (d == ds || fresh(d))
      invariant Trace(states, calls[..i]) && states[0] == old(Look(ds)) && states[i] == Look(d)
    {
      ghost var s := Look(d);
      d := Perform(d, calls[i]);
      TraceMore(states, calls, i);
      states := states + [Next(s, calls[i])];
      i := i + 1;
    }
    assert calls[..i] == calls;
  }

  lemma TraceMore<Bytes>(states: seq<Snapshot<Bytes>>, calls: seq<Call<Bytes>>, i: nat)
    requires i < |calls| && Trace(states, calls[..i])
    ensures Trace(states + [Next(states[i], calls[i])], calls[..i + 1])
  {
  }
}

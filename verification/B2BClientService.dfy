/** The client service (internal/service/b2b_client.go): clients in their stores, and the counters and
    indices over the channels that the channel service registers with it. */
module B2BClients {
  import opened Wrappers
  import opened Channels
  import opened Ledgers
  import opened Quotas
  import opened ObjectStores
  import DataStores

  /** The capacities of a client's two slot pools. */
  datatype Limits = Limits(pre: int, on: int)

  function Clamp(n: int): (r: int)
    ensures r >= 0
  {
    if n < 0 then 0 else n
  }

  /** UpdateLimits slices out of bounds for a negative limit that is news to its pool. */
  predicate Panics(l: Limits, maxPre: int, maxOn: int) {
    (maxPre < 0 && l.pre != maxPre) || (maxOn < 0 && l.on != maxOn)
  }

  /** The capacities that UpdateLimits leaves, also when it panics on the way. */
  function Relimit(l: Limits, maxPre: int, maxOn: int): (r: Limits)
    ensures !Panics(l, maxPre, maxOn) ==> r == Limits(maxPre, maxOn)
  {
    var on := if maxPre < 0 && l.pre != maxPre then l.on else if l.on != maxOn then Clamp(maxOn) else l.on;
    Limits(if l.pre != maxPre then Clamp(maxPre) else l.pre, on)
  }

  datatype UpdateOutcome = Updated(view: ClientView) | UnknownClient | NotWritten | LimitsPanic

  datatype DeleteOutcome = Deleted | NoSuchClient | ChannelsAttached | CommandFailed

  lemma SameTable<V>(a: map<int, V>, b: map<int, V>)
    requires forall id :: id in a <==> id in b
    requires forall id :: id in a ==> a[id] == b[id]
    ensures a == b
  {
    assert forall id :: id in a.Keys <==> id in b.Keys;
    assert a.Keys == b.Keys;
    forall id | id in a
      ensures id in b && a[id] == b[id]
    {
    }
    assert a == b;
  }

  /** No channel registered yet. */
  ghost predicate Fresh(l: Ledger) {
    && l.channelClient == map[] && l.clientChannels == map[] && l.enabledChannels == map[]
    && (forall c :: c in l.units ==> c in l.enabledOutputs)
    && (forall c :: c in l.enabledOutputs ==> l.enabledOutputs[c] == map[])
    && (forall c :: c in l.units ==> l.units[c] == {})
  }

  lemma FreshMore(l: Ledger, c: int)
    requires Fresh(l)
    ensures Fresh(WithClient(l, c))
  {
  }

  /** The table of the first `n` ids with their quotas. */
  ghost predicate Tabulates(m: map<int, ClientQuotas>, ids: seq<int>, quotas: seq<ClientQuotas>, n: nat) {
    && n <= |ids| == |quotas|
    && (forall id :: id in m <==> id in ids[..n])
    && (forall k :: 0 <= k < n ==> ids[k] in m && m[ids[k]] == quotas[k])
  }

  lemma TabulatesMore(m: map<int, ClientQuotas>, ids: seq<int>, quotas: seq<ClientQuotas>, n: nat)
    requires n < |ids| && Tabulates(m, ids, quotas, n)
    requires forall i, j :: 0 <= i < j < |ids| ==> ids[i] < ids[j]
    ensures Tabulates(m[ids[n] := quotas[n]], ids, quotas, n + 1)
  {
    assert ids[..n + 1] == ids[..n] + [ids[n]];
  }

  /** Every manager has the capacities that its client was given. */
  ghost predicate Limited(limits: map<int, Limits>, clients: map<int, ClientQuotas>) {
    forall c :: c in clients ==> c in limits && limits[c] == Limits(clients[c].maxPreflight, clients[c].online)
  }

  lemma SameEntry(m: map<int, set<int>>, k: int, more: set<int>)
    requires k in m && more <= m[k]
    ensures m[k := m[k] + more] == m
  {
    assert m[k] + more == m[k];
    SameTable(m[k := m[k] + more], m);
  }

  lemma AddedForAll(l: Ledger, c: int)
    requires c !in l.units
    ensures forall chs: Store :: Recounted(l, chs) ==> Recounted(WithClient(l, c), chs)
  {
    forall chs: Store | Recounted(l, chs)
      ensures Recounted(WithClient(l, c), chs)
    {
      ClientAddedRecounted(l, chs, c);
    }
  }

  lemma DroppedForAll(l: Ledger, c: int)
    requires List(l.clientChannels, c) == []
    ensures forall chs: Store :: Recounted(l, chs) ==> Recounted(WithoutClient(l, c), chs)
  {
    forall chs: Store | Recounted(l, chs)
      ensures Recounted(WithoutClient(l, c), chs)
    {
      ClientDroppedRecounted(l, chs, c);
    }
  }

  /** A view made from the counters as they stand. */
  ghost predicate Views(v: ClientView, q: ClientQuotas, l: Ledger, c: int) {
    && v.id == c && v.channelQuota == q.enabledChannels && v.channelUsage == Count(l.enabledChannels, c)
    && v.online.quota == q.online && v.online.maxPreflight == q.maxPreflight
    && c in l.enabledOutputs && |v.outputs| == |q.enabledOutputs|
    && (forall k :: 0 <= k < |v.outputs| ==>
          v.outputs[k] == OutputUsage(q.enabledOutputs[k].ref, q.enabledOutputs[k].quota,
                                      Count(l.enabledOutputs[c], q.enabledOutputs[k].ref)))
    && v.channelIds == List(l.clientChannels, c)
  }

  /** With the counters right, a view shows a recount. */
  lemma ViewShowsRecount(v: ClientView, q: ClientQuotas, l: Ledger, chs: Store, c: int)
    requires Views(v, q, l, c) && Recounted(l, chs)
    ensures Shows(v, q, chs, c)
  {
    assert ListsExactly(List(l.clientChannels, c), Owned(chs, c));
  }

  class B2BClientService {
    const ds: DataStores.DataStore<ClientQuotas>
    const objs: ObjectStore<ClientQuotas>
    var channelClient: map<int, int>
    var clientChannels: map<int, seq<int>>
    var enabledChannels: map<int, int>
    var enabledOutputs: map<int, map<string, int>>
    var units: map<int, set<int>>   // the registered units of each client's process manager
    var limits: map<int, Limits>    // the capacities of its pools

    ghost predicate Valid()
      reads this, ds, objs
    {
      && ds.Valid() && objs.Valid() && ds.records == objs.byID
      && KeysAgree() && Covered()
    }

    /** Every client with a manager has a table of output counters. */
    ghost predicate Covered()
      reads `units, `enabledOutputs
    {
      forall c :: c in units ==> c in enabledOutputs
    }

    /** Every client in memory has a manager, and nobody else. */
    ghost predicate KeysAgree()
      reads this, objs
    {
      units.Keys == limits.Keys == objs.byID.Keys
    }

    ghost function Books(): (r: Ledger)
      reads this
    {
      Ledger(channelClient, clientChannels, enabledChannels, enabledOutputs, units)
    }

    constructor (ds: DataStores.DataStore<ClientQuotas>)
      ensures this.ds == ds && fresh(objs)
      ensures objs.Valid() && objs.byID == map[]
      ensures Books() == Ledger(map[], map[], map[], map[], map[]) && limits == map[]
    {
      this.ds := ds;
      this.objs := new ObjectStore<ClientQuotas>();
      channelClient, clientChannels, enabledChannels, enabledOutputs, units := map[], map[], map[], map[], map[];
      limits := map[];
    }

    /** A client enters the in-memory tables with nothing counted. */
    method Admit(c: int, quotas: ClientQuotas)
      requires objs.Valid()
      modifies this`enabledOutputs, this`units, this`limits, objs
      ensures objs.Valid() && objs.byID == old(objs.byID)[c := quotas]
      ensures Books() == WithClient(old(Books()), c)
      ensures limits == old(limits)[c := Limits(quotas.maxPreflight, quotas.online)]
      ensures old(KeysAgree()) ==> KeysAgree()
    {
      limits := limits[c := Limits(quotas.maxPreflight, quotas.online)];
      objs.Upsert(c, quotas);
      enabledOutputs := enabledOutputs[c := map[]];
      units := units[c := {}];
    }

    /** Start-up: every stored client gets a fresh output-counter table and an empty manager. */
    method Reconcile(mgetOk: bool) returns (ok: bool)
      requires ds.Valid() && objs.Valid() && objs.byID == map[]
      requires Books() == Ledger(map[], map[], map[], map[], map[]) && limits == map[]
      modifies this, ds`ids, ds`pos, objs
      ensures mgetOk ==> ok
      ensures ok ==> Valid() && Recounted(Books(), map[])
      ensures ok ==> Limited(limits, objs.byID) && forall c :: c in units ==> units[c] == {}
    {
      var listed := ds.GetList(mgetOk);
      if !listed.Ok? {
        return false;
      }
      var (ids, quotas) := listed.value;
      AdmitAll(ids, quotas);
      assert ids[..|ids|] == ids;
      SameTable(objs.byID, ds.records);
      FreshRecounted(Books());
      return true;
    }

    /** The loop of start-up. */
    method AdmitAll(ids: seq<int>, quotas: seq<ClientQuotas>)
      requires objs.Valid() && objs.byID == map[] && |quotas| == |ids|
      requires Books() == Ledger(map[], map[], map[], map[], map[]) && limits == map[]
      requires forall i, j :: 0 <= i < j < |ids| ==> ids[i] < ids[j]
      modifies this`enabledOutputs, this`units, this`limits, objs
      ensures objs.Valid() && Fresh(Books()) && KeysAgree() && Limited(limits, objs.byID)
      ensures Tabulates(objs.byID, ids, quotas, |ids|)
    {
      var i := 0;
      while i < |ids|
        invariant 0 <= i <= |ids| && objs.Valid() && Fresh(Books()) && KeysAgree() && Limited(limits, objs.byID)
        invariant Tabulates(objs.byID, ids, quotas, i)
      {
        TabulatesMore(objs.byID, ids, quotas, i);
        FreshMore(Books(), ids[i]);
        Admit(ids[i], quotas[i]);
        i := i + 1;
      }
    }

    /** What a client's view shows, from the stored quotas, the counters and what the manager answers
        when asked how many processes are onflight. */
    method BuildView(c: int, onflight: int) returns (v: ClientView)
      requires Valid() && c in objs.byID
      ensures v.online.usage == onflight && Views(v, objs.byID[c], Books(), c)
    {
      var q := objs.byID[c];
      var usage: seq<OutputUsage> := [];
      var i := 0;
      while i < |q.enabledOutputs|
        invariant 0 <= i <= |q.enabledOutputs| && |usage| == i
        invariant forall k :: 0 <= k < i ==>
                    usage[k] == OutputUsage(q.enabledOutputs[k].ref, q.enabledOutputs[k].quota,
                                            Count(enabledOutputs[c], q.enabledOutputs[k].ref))
      {
        var o := q.enabledOutputs[i];
        usage := usage + [OutputUsage(o.ref, o.quota, Count(enabledOutputs[c], o.ref))];
        i := i + 1;
      }
      v := ClientView(c, q.enabledChannels, Count(enabledChannels, c), usage,
                      OnlineUsage(q.online, q.maxPreflight, onflight), List(clientChannels, c));
    }

    method GetOne(c: int, onflight: int) returns (r: Option<ClientView>)
      requires Valid()
      ensures r.Some? <==> c in objs.byID
      ensures r.Some? ==> r.value.online.usage == onflight
      ensures r.Some? ==> Views(r.value, objs.byID[c], Books(), c)
    {
      var found := objs.GetOne(c);
      if found.None? {
        return None;
      }
      var v := BuildView(c, onflight);
      return Some(v);
    }

    method Create(quotas: ClientQuotas, incrOk: bool, setOk: bool) returns (r: Option<ClientView>)
      requires Valid()
      modifies this, ds, objs
      ensures Valid() && (r.Some? <==> incrOk && setOk)
      ensures r.None? ==> objs.byID == old(objs.byID) && Books() == old(Books())
      ensures r.Some? ==> r.value.id !in old(objs.byID) && objs.byID == old(objs.byID)[r.value.id := quotas]
      ensures r.Some? ==> Books() == WithClient(old(Books()), r.value.id)
      ensures limits == if r.Some? then old(limits)[r.value.id := Limits(quotas.maxPreflight, quotas.online)]
                        else old(limits)
      ensures r.Some? ==> Views(r.value, quotas, Books(), r.value.id)
      ensures forall chs: Store :: old(Recounted(Books(), chs)) ==> Recounted(Books(), chs)
    {
      var made := ds.Create(quotas, incrOk, setOk);
      if !made.Ok? {
        return None;
      }
      var c := made.value;
      Admit(c, quotas);
      AddedForAll(old(Books()), c);
      var v := BuildView(c, 0);
      return Some(v);
    }

    /** New quotas for a client; the counters are left alone, so quotas may drop below the usage.  Record
        and memory are written before the manager gets its limits, and stay so when it panics. */
    method Update(c: int, quotas: ClientQuotas, setOk: bool, onflight: int) returns (r: UpdateOutcome)
      requires Valid()
      modifies this`limits, ds`records, objs
      ensures Valid() && Books() == old(Books())
      ensures r.UnknownClient? <==> c !in old(objs.byID)
      ensures r.NotWritten? <==> c in old(objs.byID) && !setOk
      ensures r.LimitsPanic? <==>
              c in old(objs.byID) && setOk && Panics(old(limits)[c], quotas.maxPreflight, quotas.online)
      ensures r.UnknownClient? || r.NotWritten? ==>
                objs.byID == old(objs.byID) && ds.records == old(ds.records) && limits == old(limits)
      ensures r.Updated? || r.LimitsPanic? ==> objs.byID == old(objs.byID)[c := quotas]
      ensures r.Updated? || r.LimitsPanic? ==>
                limits == old(limits)[c := Relimit(old(limits)[c], quotas.maxPreflight, quotas.online)]
      ensures r.Updated? ==> r.view.online.usage == onflight
      ensures r.Updated? ==> Views(r.view, quotas, Books(), c)
    {
      var found := objs.GetOne(c);
      if found.None? {
        return UnknownClient;
      }
      var written, ok := Amend(c, quotas, setOk);
      if !written {
        return NotWritten;
      }
      if !ok {
        return LimitsPanic;
      }
      var v := BuildView(c, onflight);
      return Updated(v);
    }

    /** Record, memory and manager of a known client; `ok` is false on the manager's panic. */
    method Amend(c: int, quotas: ClientQuotas, setOk: bool) returns (written: bool, ok: bool)
      requires Valid() && c in objs.byID
      modifies this`limits, ds`records, objs
      ensures Valid() && Books() == old(Books()) && written == setOk
      ensures ok <==> !Panics(old(limits)[c], quotas.maxPreflight, quotas.online)
      ensures written ==> objs.byID == old(objs.byID)[c := quotas]
      ensures written ==> limits == old(limits)[c := Relimit(old(limits)[c], quotas.maxPreflight, quotas.online)]
      ensures !written ==> objs.byID == old(objs.byID) && ds.records == old(ds.records) && limits == old(limits)
    {
      ok := !Panics(limits[c], quotas.maxPreflight, quotas.online);
      written := WriteRecord(c, quotas, setOk);
      if written {
        Replace(c, quotas);
      }
    }

    method WriteRecord(c: int, quotas: ClientQuotas, setOk: bool) returns (written: bool)
      requires ds.Valid() && c in ds.records
      modifies ds`records
      ensures ds.Valid() && written == setOk
      ensures ds.records == if written then old(ds.records)[c := quotas] else old(ds.records)
      ensures Books() == old(Books()) && (old(Covered()) ==> Covered())
    {
      var outcome := ds.Update(c, quotas, setOk);
      written := outcome.Ok?;
    }

    /** The part of Update after the record is written. */
    method Replace(c: int, quotas: ClientQuotas)
      requires objs.Valid() && c in objs.byID && KeysAgree()
      modifies this`limits, objs
      ensures objs.Valid() && objs.byID == old(objs.byID)[c := quotas] && KeysAgree()
      ensures limits == old(limits)[c := Relimit(old(limits)[c], quotas.maxPreflight, quotas.online)]
      ensures Books() == old(Books()) && (old(Covered()) ==> Covered())
    {
      objs.Upsert(c, quotas);
      limits := limits[c := Relimit(limits[c], quotas.maxPreflight, quotas.online)];
      assert units.Keys == limits.Keys == objs.byID.Keys;
    }

    method Delete(c: int, delOk: bool) returns (r: DeleteOutcome)
      requires Valid()
      modifies this`units, this`limits, ds, objs
      ensures Valid()
      ensures r.NoSuchClient? <==> c !in old(objs.byID)
      ensures r.ChannelsAttached? <==> c in old(objs.byID) && List(clientChannels, c) != []
      ensures r.Deleted? <==> c in old(objs.byID) && List(clientChannels, c) == [] && delOk
      ensures r.Deleted? ==> objs.byID == old(objs.byID) - {c} && Books() == WithoutClient(old(Books()), c)
      ensures !r.Deleted? ==> objs.byID == old(objs.byID) && Books() == old(Books())
      ensures limits == if r.Deleted? then old(limits) - {c} else old(limits)
      ensures forall chs: Store :: old(Recounted(Books(), chs)) ==> Recounted(Books(), chs)
    {
      var found := objs.GetOne(c);
      if found.None? {
        return NoSuchClient;
      }
      if |List(clientChannels, c)| != 0 {
        return ChannelsAttached;
      }
      var gone := ds.Delete(c, delOk);
      if !gone.Ok? {
        return DeleteOutcome.CommandFailed;
      }
      Drop(c);
      DroppedForAll(old(Books()), c);
      return Deleted;
    }

    /** A client leaves the in-memory tables; its counters stay. */
    method Drop(c: int)
      requires objs.Valid() && KeysAgree()
      modifies this`units, this`limits, objs
      ensures objs.Valid() && objs.byID == old(objs.byID) - {c}
      ensures Books() == WithoutClient(old(Books()), c) && KeysAgree() && limits == old(limits) - {c}
    {
      objs.Delete(c);
      units := units - {c};
      limits := limits - {c};
      assert units.Keys == limits.Keys == objs.byID.Keys;
    }

    /** Adds up (or takes down) the enabled outputs of a channel, one by one. */
    method CountOutputs(c: int, outputs: seq<Output>, up: bool)
      requires c in enabledOutputs
      modifies this`enabledOutputs
      ensures enabledOutputs.Keys == old(enabledOutputs).Keys
      ensures forall d :: d in enabledOutputs && d != c ==> enabledOutputs[d] == old(enabledOutputs)[d]
      ensures forall r: string ::
                Count(enabledOutputs[c], r) == Count(old(enabledOutputs)[c], r) + Signed(up, Uses(outputs, r))
    {
      var i := 0;
      while i < |outputs|
        invariant 0 <= i <= |outputs| && enabledOutputs.Keys == old(enabledOutputs).Keys
        invariant forall d :: d in enabledOutputs && d != c ==> enabledOutputs[d] == old(enabledOutputs)[d]
        invariant forall r: string ::
                    Count(enabledOutputs[c], r) == Count(old(enabledOutputs)[c], r) + Signed(up, Uses(outputs[..i], r))
      {
        assert outputs[..i + 1][..i] == outputs[..i];
        if outputs[i].enabled {
          var table := enabledOutputs[c];
          enabledOutputs := enabledOutputs[c := table[outputs[i].ref := Count(table, outputs[i].ref) + Signed(up, 1)]];
        }
        i := i + 1;
      }
      assert outputs[..i] == outputs;
    }

    method CountUp(c: int, ch: Channel)
      requires c in enabledOutputs
      modifies this`enabledChannels, this`enabledOutputs
      ensures Counted(old(enabledChannels), old(enabledOutputs), enabledChannels, enabledOutputs, c, ch, true)
    {
      if ch.enabled {
        enabledChannels := enabledChannels[c := Count(enabledChannels, c) + 1];
      }
      CountOutputs(c, ch.outputs, true);
    }

    method CountDown(c: int, ch: Channel)
      requires c in enabledOutputs
      modifies this`enabledChannels, this`enabledOutputs
      ensures Counted(old(enabledChannels), old(enabledOutputs), enabledChannels, enabledOutputs, c, ch, false)
    {
      if ch.enabled {
        enabledChannels := enabledChannels[c := Count(enabledChannels, c) - 1];
      }
      CountOutputs(c, ch.outputs, false);
    }

    /** The client must be known: the source dereferences its tables and its manager.  Indices and counters
        are written before the manager is asked; `addOk` says whether its allocator has a PID left, and
        a unit that is registered already needs none.  `false` is the allocator's panic. */
    method RegisterChannel(c: int, ch: Channel, addOk: bool) returns (ok: bool)
      requires Valid() && c in objs.byID
      modifies this
      ensures Valid() && Registered(old(Books()), Books(), c, ch, ok)
      ensures ok <==> addOk || ch.id in old(units)[c]
      ensures limits == old(limits)
    {
      ok := Enlist(c, ch, addOk);
    }

    method Enlist(c: int, ch: Channel, addOk: bool) returns (ok: bool)
      requires c in units && c in enabledOutputs
      modifies this`channelClient, this`clientChannels, this`enabledChannels, this`enabledOutputs, this`units
      ensures Registered(old(Books()), Books(), c, ch, ok)
      ensures ok <==> addOk || ch.id in old(units)[c]
    {
      channelClient := channelClient[ch.id := c];
      clientChannels := clientChannels[c := List(clientChannels, c) + [ch.id]];
      CountUp(c, ch);
      ok := AddUnit(c, ch.id, addOk);
    }

    /** What Add of a client's manager does to its units. */
    method AddUnit(c: int, id: int, addOk: bool) returns (ok: bool)
      requires c in units
      modifies this`units
      ensures units == old(units)[c := old(units)[c] + if ok then {id} else {}]
      ensures ok <==> addOk || id in old(units)[c]
    {
      SameEntry(units, c, if id in units[c] then {id} else {});
      if id in units[c] {
        return true;
      }
      if !addOk {
        return false;
      }
      units := units[c := units[c] + {id}];
      return true;
    }

    /** The helper `remove`: shifts the tail over the first occurrence. */
    static method Remove(q: seq<int>, target: int) returns (r: seq<int>)
      ensures r == RemoveFirst(q, target)
    {
      var i := 0;
      while i < |q|
        invariant 0 <= i <= |q| && RemoveFirst(q, target) == q[..i] + RemoveFirst(q[i..], target)
      {
        RemoveFirstFrom(q, i, target);
        if q[i] == target {
          return q[..i] + q[i + 1..];
        }
        i := i + 1;
      }
      assert q[..i] == q && q[i..] == [];
      return q;
    }

    method UnregisterChannel(c: int, ch: Channel)
      requires Valid() && c in objs.byID
      modifies this
      ensures Valid() && Unregistered(old(Books()), Books(), c, ch)
    {
      Delist(c, ch);
    }

    method Delist(c: int, ch: Channel)
      requires c in units && c in enabledOutputs
      modifies this`channelClient, this`clientChannels, this`enabledChannels, this`enabledOutputs, this`units
      ensures Unregistered(old(Books()), Books(), c, ch)
    {
      channelClient := channelClient - {ch.id};
      var shorter := Remove(List(clientChannels, c), ch.id);
      clientChannels := clientChannels[c := shorter];
      CountDown(c, ch);
      units := units[c := units[c] - {ch.id}];
    }
  }
}

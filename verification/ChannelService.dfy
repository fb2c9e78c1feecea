/** The channel service (internal/service/channel.go) over its stores and the client service.  A call
    is atomic; a store command may fail, which is a parameter here. */
module ChannelServices {
  import opened Wrappers
  import opened Channels
  import opened Ledgers
  import opened Quotas
  import opened ObjectStores
  import opened B2BClients
  import opened OrderedIndex
  import DataStores

  /** The calls that took effect, with or without a unit for the channel. */
  predicate Stored(r: Reply) {
    r.Done? || r.NoPid?
  }

  /** What is persisted: the channel without its id. */
  datatype ChannelModel = ChannelModel(clientId: Option<int>, outputs: seq<Output>, enabled: bool)

  function Model(ch: Channel): (r: ChannelModel) {
    ChannelModel(ch.clientId, ch.outputs, ch.enabled)
  }

  function FromModel(m: ChannelModel, id: int): (ch: Channel)
    ensures Model(ch) == m && ch.id == id
  {
    Channel(id, m.clientId, m.outputs, m.enabled)
  }

  datatype Reply =
    | Done
    | NotFound
    | ClientNotFound
    | QuotaExceeded(refusal: Refusal)
    | StoreFailed
    | NoPid   // the panic of the manager that was to run the channel; everything else is done

  ghost predicate Mirrors(chs: Store, records: map<int, ChannelModel>) {
    && (forall id :: id in chs <==> id in records)
    && (forall id :: id in chs ==> chs[id] == FromModel(records[id], id))
  }

  /** What a restart relies on: every stored channel's client is stored too. */
  ghost predicate OwnersStored(records: map<int, ChannelModel>, clients: map<int, ClientQuotas>) {
    forall id :: id in records && records[id].clientId.Some? ==> records[id].clientId.value in clients
  }

  /** What start-up has loaded so far. */
  ghost predicate Loaded(chs: Store, ids: seq<int>, records: map<int, ChannelModel>) {
    && (forall id :: id in chs <==> id in ids)
    && (forall id :: id in chs ==> id in records && chs[id] == FromModel(records[id], id))
  }

  lemma LoadedWith(chs: Store, ids: seq<int>, i: nat, records: map<int, ChannelModel>)
    requires i < |ids| && ids[i] in records && Loaded(chs, ids[..i], records)
    requires forall k :: 0 <= k < i ==> ids[k] < ids[i]
    ensures ids[i] !in chs
    ensures Loaded(chs[ids[i] := FromModel(records[ids[i]], ids[i])], ids[..i + 1], records)
  {
    assert ids[..i + 1] == ids[..i] + [ids[i]];
  }

  lemma MirrorsWithout(chs: Store, records: map<int, ChannelModel>, id: int)
    requires Mirrors(chs, records)
    ensures Mirrors(chs - {id}, records - {id})
    ensures forall x :: x in chs ==> chs[x].id == x
  {
  }

  lemma MirrorsWith(chs: Store, records: map<int, ChannelModel>, ch: Channel)
    requires Mirrors(chs, records)
    ensures Mirrors(chs[ch.id := ch], records[ch.id := Model(ch)])
    ensures forall id :: id in chs ==> chs[id].id == id
  {
  }

  /** Whether storing `ch` in place of `prev` passes the client lookup and the quota check, with `v` the
      view of its client. */
  ghost predicate Admitted(clients: map<int, ClientQuotas>, prev: Option<Channel>, ch: Channel, v: ClientView) {
    ch.clientId.Some? ==>
      && ch.clientId.value in clients
      && if prev.Some? && prev.value.clientId == ch.clientId then FitsChange(v, prev.value, ch) else FitsNew(v, ch)
  }

  /** The view handed to the check is a recount, if there is a client to look at. */
  ghost predicate Seen(chs: Store, clients: map<int, ClientQuotas>, ch: Channel, v: ClientView) {
    ch.clientId.Some? && ch.clientId.value in clients ==> Shows(v, clients[ch.clientId.value], chs, ch.clientId.value)
  }

  /** What a call to store `ch` in place of `prev` answers. */
  ghost predicate Answers(r: Reply, clients: map<int, ClientQuotas>, prev: Option<Channel>, ch: Channel, v: ClientView,
                          storeOk: bool, addOk: bool) {
    if ch.clientId.Some? && ch.clientId.value !in clients then r.ClientNotFound?
    else if !Admitted(clients, prev, ch, v) then r.QuotaExceeded? && Justified(v, ch, r.refusal)
    else if !storeOk then r.StoreFailed?
    else if addOk || !Wants(ch) then r.Done?
    else r.NoPid?
  }

  function Lookup(chs: Store, id: int): (r: Option<Channel>) {
    if id in chs then Some(chs[id]) else None
  }

  lemma SplitAt(chs: Store, id: int, ch: Channel)
    requires id in chs
    ensures chs == (chs - {id})[id := chs[id]]
    ensures chs[id := ch] == (chs - {id})[id := ch]
  {
    assert chs == (chs - {id})[id := chs[id]];
    assert chs[id := ch] == (chs - {id})[id := ch];
  }

  lemma OwnerlessWith(chs: Store, ch: Channel)
    requires ch.id !in chs
    ensures OwnerlessEnabled(chs[ch.id := ch]) == OwnerlessEnabled(chs)
            + if ch.clientId.None? && ch.enabled then {ch.id} else {}
    ensures ch.id !in OwnerlessEnabled(chs)
  {
  }

  /** The counters are right, and the ownerless manager runs nothing that is not its to run. */
  ghost predicate Kept(l: Ledger, ownerless: set<int>, chs: Store) {
    Recounted(l, chs) && ownerless <= OwnerlessEnabled(chs)
  }

  lemma ClientKnown(l: Ledger, rest: Store, ch: Channel)
    requires ch.clientId.Some? && Recounted(l, rest[ch.id := ch])
    ensures ch.clientId.value in l.units
  {
    var all := rest[ch.id := ch];
    assert ch.id in all;
  }

  /** A passed check is worth the quota, whatever kind of call it was. */
  lemma AdmittedKeepsQuotas(chs: Store, clients: map<int, ClientQuotas>, ch: Channel, v: ClientView)
    requires Admitted(clients, Lookup(chs, ch.id), ch, v) && Seen(chs, clients, ch, v) && UniqueRefs(ch.outputs)
    requires ch.id in chs ==> chs[ch.id].id == ch.id
    ensures KeepsQuotas(chs, chs[ch.id := ch], clients)
  {
    if ch.id in chs {
      var prev := chs[ch.id];
      SplitAt(chs, ch.id, ch);
      if ch.clientId.None? {
        ReleasedKeepsQuotas(chs - {ch.id}, prev, ch, clients);
      } else if prev.clientId == ch.clientId {
        ChangeKeepsQuotas(chs - {ch.id}, prev, ch, ch.clientId.value, clients, v);
      } else {
        MoveKeepsQuotas(chs - {ch.id}, prev, ch, ch.clientId.value, clients, v);
      }
    } else if ch.clientId.Some? {
      NewKeepsQuotas(chs, ch, ch.clientId.value, clients, v);
    } else {
      NewOwnerlessKeepsQuotas(chs, ch, clients);
    }
  }

  /** What a call that passed the checks answers. */
  function Outcome(storeOk: bool, addOk: bool, ch: Channel): (r: Reply)
    ensures Stored(r) <==> storeOk
  {
    if !storeOk then StoreFailed else if addOk || !Wants(ch) then Done else NoPid
  }

  /** What a call answers, from a view that is a recount; a known client's call is refused exactly when it asks
      for more than there is room for. */
  ghost predicate Judged(r: Reply, chs: Store, clients: map<int, ClientQuotas>, prev: Option<Channel>, ch: Channel,
                         v: ClientView, storeOk: bool, addOk: bool) {
    && Seen(chs, clients, ch, v) && Answers(r, clients, prev, ch, v, storeOk, addOk)
    && (r.QuotaExceeded? <==> OverQuota(chs, clients, prev, ch))
  }

  /** What the checks answer stands, unless they pass; then store and manager decide. */
  lemma Verdict(r: Reply, chs: Store, clients: map<int, ClientQuotas>, prev: Option<Channel>, ch: Channel,
                v: ClientView, storeOk: bool, addOk: bool)
    requires Judged(r, chs, clients, prev, ch, v, true, true)
    ensures !r.Done? ==> Judged(r, chs, clients, prev, ch, v, storeOk, addOk) && !Stored(r)
    ensures r.Done? ==> Judged(Outcome(storeOk, addOk, ch), chs, clients, prev, ch, v, storeOk, addOk)
    ensures r.Done? ==> Admitted(clients, prev, ch, v) && Seen(chs, clients, ch, v)
  {
  }

  /** Among known clients, exactly the calls that ask for more than there is room for are refused. */
  lemma RefusedIffOver(r: Reply, chs: Store, clients: map<int, ClientQuotas>, prev: Option<Channel>, ch: Channel,
                       v: ClientView, storeOk: bool, addOk: bool)
    requires Answers(r, clients, prev, ch, v, storeOk, addOk) && Seen(chs, clients, ch, v)
    ensures r.QuotaExceeded? <==> OverQuota(chs, clients, prev, ch)
  {
    if ch.clientId.Some? && ch.clientId.value in clients {
      if prev.Some? && prev.value.clientId == ch.clientId {
        FitsChangeIff(chs, clients, prev.value, ch, v);
      } else {
        FitsNewIff(chs, clients, prev, ch, v);
      }
    }
  }

  /** In other words: a call for a known client is refused exactly when it would take a recounted usage that
      it raises above its quota. */
  lemma RefusedIffQuotaBroken(r: Reply, chs: Store, clients: map<int, ClientQuotas>, ch: Channel,
                              v: ClientView, storeOk: bool, addOk: bool)
    requires Answers(r, clients, Lookup(chs, ch.id), ch, v, storeOk, addOk) && Seen(chs, clients, ch, v)
    requires UniqueRefs(ch.outputs) && !r.ClientNotFound?
    requires ch.id in chs ==> chs[ch.id].id == ch.id && UniqueRefs(chs[ch.id].outputs)
    ensures r.QuotaExceeded? <==> !KeepsQuotas(chs, chs[ch.id := ch], clients)
  {
    var prev := Lookup(chs, ch.id);
    RefusedIffOver(r, chs, clients, prev, ch, v, storeOk, addOk);
    if ch.id in chs {
      SplitAt(chs, ch.id, ch);
      assert Before(chs - {ch.id}, prev) == chs;
      OverQuotaIff(chs - {ch.id}, prev, ch, clients);
    } else {
      OverQuotaIff(chs, prev, ch, clients);
    }
  }

  lemma ChangeVerdict(chs: Store, clients: map<int, ClientQuotas>, cur: Channel, ch: Channel, v: ClientView)
    requires ch.id in chs && chs[ch.id] == cur && cur.id == ch.id
    requires Admitted(clients, Some(cur), ch, v) && Seen(chs, clients, ch, v)
    ensures UniqueRefs(ch.outputs) ==> KeepsQuotas(chs, chs[ch.id := ch], clients)
  {
    if UniqueRefs(ch.outputs) {
      AdmittedKeepsQuotas(chs, clients, ch, v);
    }
  }

  lemma NewVerdict(chs: Store, clients: map<int, ClientQuotas>, ch: Channel, v: ClientView, id: int)
    requires Admitted(clients, None, ch, v) && Seen(chs, clients, ch, v)
    ensures id !in chs && UniqueRefs(ch.outputs) ==> KeepsQuotas(chs, chs[id := ch.(id := id)], clients)
  {
    if id !in chs && UniqueRefs(ch.outputs) {
      AdmittedKeepsQuotas(chs, clients, ch.(id := id), v);
    }
  }

  lemma NewOwnerlessKeepsQuotas(chs: Store, ch: Channel, clients: map<int, ClientQuotas>)
    requires ch.id !in chs && ch.clientId.None?
    ensures KeepsQuotas(chs, chs[ch.id := ch], clients)
  {
    forall d: int
      ensures |EnabledOf(chs[ch.id := ch], d)| == |EnabledOf(chs, d)|
    {
      EnabledWith(chs, ch, d);
    }
    forall d: int, r: string
      ensures |OutputsOf(chs[ch.id := ch], d, r)| == |OutputsOf(chs, d, r)|
    {
      OutputsWith(chs, ch, d, r);
    }
  }

  class ChannelService {
    const b2b: B2BClientService
    const ds: DataStores.DataStore<ChannelModel>
    const objs: ObjectStore<Channel>
    var units: set<int>   // the registered units of the manager for channels without a client

    ghost predicate Wired()
      reads this
    {
      (b2b.ds as object) != ds && (b2b.objs as object) != objs
    }

    /** Memory mirrors the records. */
    ghost predicate StoresRight()
      reads this, ds, objs
    {
      Wired() && ds.Valid() && objs.Valid() && Mirrors(objs.byID, ds.records)
    }

    /** Counters and ownership indices equal a recount over the stored channels, memory mirrors the records,
        and no manager runs a channel that is not stored and its to run. */
    ghost predicate Valid()
      reads this, b2b, b2b.ds, b2b.objs, ds, objs
    {
      StoresRight() && b2b.Valid() && Kept(b2b.Books(), units, objs.byID)
    }

    /** Stored channels that a manager was to run and does not. */
    ghost function NotRun(): (r: set<int>)
      reads this, b2b, objs
    {
      Missing(b2b.Books(), units, objs.byID)
    }

    constructor (b2b: B2BClientService, ds: DataStores.DataStore<ChannelModel>)
      requires (b2b.ds as object) != ds
      ensures this.b2b == b2b && this.ds == ds && fresh(objs) && Wired()
      ensures objs.Valid() && objs.byID == map[] && units == {}
    {
      this.b2b, this.ds := b2b, ds;
      this.objs := new ObjectStore<Channel>();
      this.units := {};
    }

    /** Hands a channel to the manager that is to run it; `rest` is everything else that is stored.
        `addOk` says whether that manager has a PID left; `false` is its panic. */
    method Attach(ch: Channel, addOk: bool, ghost rest: Store) returns (ok: bool)
      requires Wired() && b2b.Valid() && ch.id !in rest
      requires ch.clientId.Some? ==> ch.clientId.value in b2b.objs.byID
      requires Kept(b2b.Books(), units, rest)
      modifies this`units, b2b
      ensures b2b.Valid() && Kept(b2b.Books(), units, rest[ch.id := ch])
      ensures ok <==> addOk || !Wants(ch)
      ensures Missing(b2b.Books(), units, rest[ch.id := ch])
              == Missing(old(b2b.Books()), old(units), rest) + if ok then {} else {ch.id}
    {
      OwnerlessWith(rest, ch);
      if ch.clientId.Some? {
        ok := AttachToClient(ch.clientId.value, ch, addOk, rest);
        return;
      }
      OwnerlessRecounted(b2b.Books(), rest, ch);
      OwnerlessMissing(b2b.Books(), units, rest, ch);
      if ch.enabled && !addOk {
        return false;
      }
      if ch.enabled {
        units := units + {ch.id};
      }
      return true;
    }

    method AttachToClient(c: int, ch: Channel, addOk: bool, ghost rest: Store) returns (ok: bool)
      requires Wired() && b2b.Valid() && ch.id !in rest && ch.clientId == Some(c) && c in b2b.objs.byID
      requires Recounted(b2b.Books(), rest)
      modifies b2b
      ensures b2b.Valid() && Recounted(b2b.Books(), rest[ch.id := ch]) && ok == addOk
      ensures Missing(b2b.Books(), units, rest[ch.id := ch])
              == Missing(old(b2b.Books()), units, rest) + if ok then {} else {ch.id}
    {
      assert ch.id !in Owned(rest, c) && ch.id !in b2b.units[c];
      ok := b2b.RegisterChannel(c, ch, addOk);
      RegisterRecounted(old(b2b.Books()), b2b.Books(), rest, c, ch, ok);
      RegisterMissing(old(b2b.Books()), b2b.Books(), units, rest, c, ch, ok);
    }

    /** Takes a channel away from the manager that runs it. */
    method Detach(ch: Channel, ghost rest: Store)
      requires Wired() && b2b.Valid() && ch.id !in rest
      requires Kept(b2b.Books(), units, rest[ch.id := ch])
      modifies this`units, b2b
      ensures b2b.Valid() && Kept(b2b.Books(), units, rest)
      ensures Missing(b2b.Books(), units, rest) == Missing(old(b2b.Books()), old(units), rest[ch.id := ch]) - {ch.id}
    {
      OwnerlessWith(rest, ch);
      if ch.clientId.Some? {
        DetachFromClient(ch.clientId.value, ch, rest);
        return;
      }
      OwnerlessRecounted(b2b.Books(), rest, ch);
      OwnerlessGone(b2b.Books(), units, rest, ch);
      if ch.enabled {
        units := units - {ch.id};
      }
    }

    method DetachFromClient(c: int, ch: Channel, ghost rest: Store)
      requires Wired() && b2b.Valid() && ch.id !in rest && ch.clientId == Some(c)
      requires Recounted(b2b.Books(), rest[ch.id := ch])
      modifies b2b
      ensures b2b.Valid() && Recounted(b2b.Books(), rest)
      ensures Missing(b2b.Books(), units, rest) == Missing(old(b2b.Books()), units, rest[ch.id := ch]) - {ch.id}
    {
      ClientKnown(b2b.Books(), rest, ch);
      b2b.UnregisterChannel(c, ch);
      UnregisterRecounted(old(b2b.Books()), b2b.Books(), rest, c, ch);
      UnregisterMissing(old(b2b.Books()), b2b.Books(), units, rest, c, ch);
    }

    /** A channel that was not there enters memory and its manager. */
    method Place(ch: Channel, addOk: bool) returns (ok: bool)
      requires Wired() && b2b.Valid() && objs.Valid() && ch.id !in objs.byID
      requires ch.clientId.Some? ==> ch.clientId.value in b2b.objs.byID
      requires Kept(b2b.Books(), units, objs.byID)
      modifies this`units, b2b, objs
      ensures b2b.Valid() && objs.Valid() && objs.byID == old(objs.byID)[ch.id := ch]
      ensures Kept(b2b.Books(), units, objs.byID)
      ensures ok <==> addOk || !Wants(ch)
      ensures NotRun() == old(NotRun()) + if ok then {} else {ch.id}
    {
      ghost var rest := objs.byID;
      objs.Upsert(ch.id, ch);
      ok := Attach(ch, addOk, rest);
    }

    /** Start-up over the stored channels, whose clients must be known.  A manager that refuses a channel
        (`refusing` holds those ids) panics, and the server does not come up. */
    method Reconcile(mgetOk: bool, refusing: set<int>) returns (ok: bool)
      requires Wired() && b2b.Valid() && ds.Valid() && objs.Valid() && objs.byID == map[] && units == {}
      requires Recounted(b2b.Books(), map[]) && OwnersStored(ds.records, b2b.objs.byID)
      modifies this`units, b2b, ds`ids, ds`pos, objs
      ensures ok ==> Valid() && NotRun() == {}
      ensures ok ==> forall id :: id in ds.records && Wants(FromModel(ds.records[id], id)) ==> id !in refusing
      ensures mgetOk && !ok ==> exists id :: id in ds.records && Wants(FromModel(ds.records[id], id)) && id in refusing
    {
      var listed := ds.GetList(mgetOk);
      if !listed.Ok? {
        return false;
      }
      var (ids, models) := listed.value;
      NothingMissing(b2b.Books());
      ok := LoadAll(ids, models, refusing);
      assert ok ==> Mirrors(objs.byID, ds.records);
    }

    static lemma NothingMissing(l: Ledger)
      ensures Missing(l, {}, map[]) == {} && OwnerlessEnabled(map[]) == {}
    {
    }

    /** Everything in memory so far is run and counted. */
    ghost predicate Running()
      reads this, b2b, b2b.ds, b2b.objs, objs
    {
      Wired() && b2b.Valid() && objs.Valid() && Kept(b2b.Books(), units, objs.byID) && NotRun() == {}
    }

    /** The loop of start-up. */
    method LoadAll(ids: seq<int>, models: seq<ChannelModel>, refusing: set<int>) returns (ok: bool)
      requires Running() && objs.byID == map[] && OwnersStored(ds.records, b2b.objs.byID)
      requires Ascending(ids) && |models| == |ids|
      requires forall i :: 0 <= i < |ids| ==> ids[i] in ds.records && ds.records[ids[i]] == models[i]
      modifies this`units, b2b, objs
      ensures ok ==> Running() && Loaded(objs.byID, ids, ds.records)
      ensures ok <==> forall i :: 0 <= i < |ids| && Wants(FromModel(models[i], ids[i])) ==> ids[i] !in refusing
    {
      var i := 0;
      while i < |ids|
        invariant 0 <= i <= |ids| && Running() && Loaded(objs.byID, ids[..i], ds.records)
        invariant forall k :: 0 <= k < i && Wants(FromModel(models[k], ids[k])) ==> ids[k] !in refusing
      {
        LoadedWith(objs.byID, ids, i, ds.records);
        ok := Load(FromModel(models[i], ids[i]), ids[i] !in refusing);
        if !ok {
          return;
        }
        i := i + 1;
      }
      assert ids[..i] == ids;
      return true;
    }

    method Load(ch: Channel, addOk: bool) returns (ok: bool)
      requires Running() && ch.id !in objs.byID
      requires ch.clientId.Some? ==> ch.clientId.value in b2b.objs.byID
      modifies this`units, b2b, objs
      ensures objs.byID == old(objs.byID)[ch.id := ch]
      ensures ok <==> addOk || !Wants(ch)
      ensures ok ==> Running()
    {
      ok := Place(ch, addOk);
      assert ok ==> NotRun() == {};
    }

    /** The client lookup and the quota check in front of Create and Update. */
    method Check(ch: Channel, cur: Option<Channel>) returns (r: Reply, ghost v: ClientView)
      requires Valid()
      ensures Judged(r, objs.byID, b2b.objs.byID, cur, ch, v, true, true)
    {
      r, v := Ask(ch, cur);
      RefusedIffOver(r, objs.byID, b2b.objs.byID, cur, ch, v, true, true);
    }

    /** The client lookup and the quota check against its view. */
    method Ask(ch: Channel, cur: Option<Channel>) returns (r: Reply, ghost v: ClientView)
      requires Valid()
      ensures Seen(objs.byID, b2b.objs.byID, ch, v)
      ensures Answers(r, b2b.objs.byID, cur, ch, v, true, true)
    {
      v := ClientView(0, 0, 0, [], OnlineUsage(0, 0, 0), []);
      if ch.clientId.None? {
        return Done, v;
      }
      var onflight: int := *;
      var found := b2b.GetOne(ch.clientId.value, onflight);
      if found.None? {
        return ClientNotFound, v;
      }
      v := found.value;
      ViewShowsRecount(v, b2b.objs.byID[ch.clientId.value], b2b.Books(), objs.byID, ch.clientId.value);
      var refused: Option<Refusal>;
      if cur.Some? && cur.value.clientId == ch.clientId {
        refused := EnforceQuotaOnUpdate(found.value, cur.value, ch);
      } else {
        refused := EnforceQuotaOnCreate(found.value, ch);
      }
      if refused.Some? {
        return QuotaExceeded(refused.value), v;
      }
      return Done, v;
    }

    /** Nothing that a reader of the service can see has changed. */
    twostate predicate Untouched()
      reads this, b2b, ds, objs
    {
      && objs.byID == old(objs.byID) && ds.records == old(ds.records)
      && units == old(units) && b2b.Books() == old(b2b.Books())
    }

    /** The channel gets its id from the store; one with unique refs raises nobody above a quota.  When the
        manager panics, the channel is stored and counted all the same, and not run. */
    method Create(ch: Channel, incrOk: bool, setOk: bool, addOk: bool) returns (r: Reply, id: int, ghost v: ClientView)
      requires Valid()
      modifies this`units, b2b, ds, objs
      ensures Valid()
      ensures Judged(r, old(objs.byID), b2b.objs.byID, None, ch, v, incrOk && setOk, addOk)
      ensures Stored(r) ==> id !in old(objs.byID) && objs.byID == old(objs.byID)[id := ch.(id := id)]
      ensures Stored(r) ==> NotRun() == old(NotRun()) + if r.NoPid? then {id} else {}
      ensures Stored(r) && UniqueRefs(ch.outputs) ==> KeepsQuotas(old(objs.byID), objs.byID, b2b.objs.byID)
      ensures !Stored(r) ==> Untouched()
    {
      id := 0;
      r, v := Check(ch, None);
      Verdict(r, objs.byID, b2b.objs.byID, None, ch, v, incrOk && setOk, addOk);
      if r.Done? {
        r, id := Enter(ch, incrOk, setOk, addOk);
        NewVerdict(old(objs.byID), b2b.objs.byID, ch, v, id);
      }
    }

    /** The part of Create after the checks: record, memory, manager. */
    method Enter(ch: Channel, incrOk: bool, setOk: bool, addOk: bool) returns (r: Reply, id: int)
      requires Valid() && (ch.clientId.Some? ==> ch.clientId.value in b2b.objs.byID)
      modifies this`units, b2b, ds, objs
      ensures Valid() && r == Outcome(incrOk && setOk, addOk, ch)
      ensures Stored(r) ==> id !in old(objs.byID) && objs.byID == old(objs.byID)[id := ch.(id := id)]
      ensures Stored(r) ==> NotRun() == old(NotRun()) + if r.NoPid? then {id} else {}
      ensures !Stored(r) ==> Untouched()
    {
      var made := ds.Create(Model(ch), incrOk, setOk);
      if !made.Ok? {
        return StoreFailed, 0;
      }
      id := made.value;
      MirrorsWith(objs.byID, old(ds.records), ch.(id := id));
      var ok := Place(ch.(id := id), addOk);
      r := if ok then Done else NoPid;
    }

    /** A channel that is not there is not found; otherwise the checks, then the new version in place of the
        old one, in memory and at its manager, which may be another than before. */
    method Update(ch: Channel, setOk: bool, addOk: bool) returns (r: Reply, ghost v: ClientView)
      requires Valid()
      modifies this`units, b2b, ds`records, objs
      ensures Valid()
      ensures r.NotFound? <==> ch.id !in old(objs.byID)
      ensures !r.NotFound? ==>
                Judged(r, old(objs.byID), b2b.objs.byID, Lookup(old(objs.byID), ch.id), ch, v, setOk, addOk)
      ensures Stored(r) ==> ch.id in old(objs.byID) && (r.NoPid? <==> !addOk && Wants(ch))
      ensures Stored(r) ==> objs.byID == old(objs.byID)[ch.id := ch]
      ensures Stored(r) ==> NotRun() == old(NotRun()) - {ch.id} + if r.NoPid? then {ch.id} else {}
      ensures Stored(r) && UniqueRefs(ch.outputs) ==> KeepsQuotas(old(objs.byID), objs.byID, b2b.objs.byID)
      ensures !Stored(r) ==> Untouched()
    {
      v := ClientView(0, 0, 0, [], OnlineUsage(0, 0, 0), []);
      var cur := objs.GetOne(ch.id);
      if cur.None? {
        r := NotFound;
      } else {
        r, v := UpdateKnown(cur.value, ch, setOk, addOk);
      }
    }

    method UpdateKnown(cur: Channel, ch: Channel, setOk: bool, addOk: bool) returns (r: Reply, ghost v: ClientView)
      requires Valid() && ch.id in objs.byID && objs.byID[ch.id] == cur
      modifies this`units, b2b, ds`records, objs
      ensures Valid() && Judged(r, old(objs.byID), b2b.objs.byID, Some(cur), ch, v, setOk, addOk)
      ensures Stored(r) ==> objs.byID == old(objs.byID)[ch.id := ch]
      ensures Stored(r) ==> NotRun() == old(NotRun()) - {ch.id} + if r.NoPid? then {ch.id} else {}
      ensures Stored(r) && UniqueRefs(ch.outputs) ==> KeepsQuotas(old(objs.byID), objs.byID, b2b.objs.byID)
      ensures !Stored(r) ==> Untouched()
    {
      r, v := Check(ch, Some(cur));
      Verdict(r, objs.byID, b2b.objs.byID, Some(cur), ch, v, setOk, addOk);
      if r.Done? {
        ChangeVerdict(objs.byID, b2b.objs.byID, cur, ch, v);
        var _, _ := Overwrite(cur, ch, setOk, addOk);
        r := Outcome(setOk, addOk, ch);
      }
    }

    /** The part of Update after the checks. */
    method Overwrite(cur: Channel, ch: Channel, setOk: bool, addOk: bool) returns (written: bool, ok: bool)
      requires Valid() && ch.id in objs.byID && objs.byID[ch.id] == cur
      requires ch.clientId.Some? ==> ch.clientId.value in b2b.objs.byID
      modifies this`units, b2b, ds`records, objs
      ensures Valid() && written == setOk && (ok <==> addOk || !Wants(ch))
      ensures written ==> objs.byID == old(objs.byID)[ch.id := ch]
      ensures written ==> NotRun() == old(NotRun()) - {ch.id} + if ok then {} else {ch.id}
      ensures !written ==> Untouched()
    {
      ok := addOk || !Wants(ch);
      var outcome := ds.Update(ch.id, Model(ch), setOk);
      if !outcome.Ok? {
        return false, ok;
      }
      MirrorsWith(objs.byID, old(ds.records), ch);
      ok := Replace(cur, ch, addOk);
      return true, ok;
    }

    /** The new version enters memory, leaves the old one's manager and enters its own. */
    method Replace(cur: Channel, ch: Channel, addOk: bool) returns (ok: bool)
      requires Wired() && b2b.Valid() && objs.Valid() && ch.id in objs.byID && objs.byID[ch.id] == cur
               && cur.id == ch.id
      requires ch.clientId.Some? ==> ch.clientId.value in b2b.objs.byID
      requires Kept(b2b.Books(), units, objs.byID)
      modifies this`units, b2b, objs
      ensures b2b.Valid() && objs.Valid() && objs.byID == old(objs.byID)[ch.id := ch]
      ensures Kept(b2b.Books(), units, objs.byID)
      ensures ok <==> addOk || !Wants(ch)
      ensures NotRun() == old(NotRun()) - {ch.id} + if ok then {} else {ch.id}
    {
      ghost var rest := objs.byID - {ch.id};
      SplitAt(objs.byID, ch.id, ch);
      objs.Upsert(ch.id, ch);
      Detach(cur, rest);
      ok := Attach(ch, addOk, rest);
    }

    method Delete(id: int, delOk: bool) returns (r: Reply)
      requires Valid()
      modifies this`units, b2b, ds, objs
      ensures Valid()
      ensures r.NotFound? <==> id !in old(objs.byID)
      ensures r.Done? <==> id in old(objs.byID) && delOk
      ensures r.Done? || r.NotFound? || r.StoreFailed?
      ensures r.Done? ==> objs.byID == old(objs.byID) - {id} && NotRun() == old(NotRun()) - {id}
      ensures r.Done? ==> KeepsQuotas(old(objs.byID), objs.byID, b2b.objs.byID)
      ensures !r.Done? ==> Untouched() && NotRun() == old(NotRun())
    {
      var cur := objs.GetOne(id);
      if cur.None? {
        return NotFound;
      }
      var gone := Erase(cur.value, delOk);
      if !gone {
        return StoreFailed;
      }
      SplitAt(old(objs.byID), id, cur.value);
      DeleteKeepsQuotas(old(objs.byID) - {id}, cur.value, b2b.objs.byID);
      return Done;
    }

    /** Record, memory and manager of a channel that is there. */
    method Erase(cur: Channel, delOk: bool) returns (gone: bool)
      requires Valid() && cur.id in objs.byID && objs.byID[cur.id] == cur
      modifies this`units, b2b, ds, objs
      ensures Valid() && gone == delOk
      ensures gone ==> objs.byID == old(objs.byID) - {cur.id} && NotRun() == old(NotRun()) - {cur.id}
      ensures !gone ==> Untouched()
    {
      var outcome := ds.Delete(cur.id, delOk);
      if !outcome.Ok? {
        return false;
      }
      MirrorsWithout(objs.byID, old(ds.records), cur.id);
      Withdraw(cur);
      return true;
    }

    /** A channel leaves memory and its manager. */
    method Withdraw(cur: Channel)
      requires Wired() && b2b.Valid() && objs.Valid() && cur.id in objs.byID && objs.byID[cur.id] == cur
      requires Kept(b2b.Books(), units, objs.byID)
      modifies this`units, b2b, objs
      ensures b2b.Valid() && objs.Valid() && objs.byID == old(objs.byID) - {cur.id}
      ensures Kept(b2b.Books(), units, objs.byID)
      ensures NotRun() == old(NotRun()) - {cur.id}
    {
      SplitAt(objs.byID, cur.id, cur);
      objs.Delete(cur.id);
      Detach(cur, objs.byID);
    }
  }
}

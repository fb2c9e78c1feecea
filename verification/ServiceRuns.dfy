/** Whole runs of the two services: any mix of channel calls, client calls and restarts. */
module ServiceRuns {
  import opened Wrappers
  import opened Channels
  import opened Ledgers
  import opened Quotas
  import opened B2BClients
  import opened ChannelServices
  import opened DataStores
  import StoreRuns

  /** `addOk` is the answer of the manager that is to run the channel; a restart is given the ids that
      the new managers refuse. */
  datatype Call =
    | CreateChannel(ch: Channel, incrOk: bool, setOk: bool, addOk: bool)
    | UpdateChannel(ch: Channel, setOk: bool, addOk: bool)
    | DeleteChannel(id: int, delOk: bool)
    | CreateClient(quotas: ClientQuotas, incrOk: bool, setOk: bool)
    | UpdateClient(client: int, quotas: ClientQuotas, setOk: bool)
    | DeleteClient(client: int, delOk: bool)
    | Restart(clientsOk: bool, channelsOk: bool, refusing: set<int>)

  /** What a call came to, as far as the managers are concerned. */
  datatype Event =
    | Kept(id: int, refused: bool)   // a channel was stored, and its manager asked if it is to run
    | Removed(id: int)
    | Started
    | Quiet

  /** Channels whose last registration was refused, with one more event. */
  function Step(refused: set<int>, e: Event): (r: set<int>) {
    match e
    case Kept(id, no) => refused - {id} + if no then {id} else {}
    case Removed(id) => refused - {id}
    case Started => {}
    case Quiet => refused
  }

  function Refused(before: set<int>, log: seq<Event>): (r: set<int>) {
    if log == [] then before
    else
      var last := |log| - 1;
      Step(Refused(before, log[..last]), log[last])
  }

  lemma RefusedMore(before: set<int>, log: seq<Event>, e: Event)
    ensures Refused(before, log + [e]) == Step(Refused(before, log), e)
  {
    assert (log + [e])[..|log|] == log;
  }

  /** An event that settles whether the channel is run, whatever was before. */
  predicate Settles(e: Event, id: int) {
    e.Started? || (e.Kept? && e.id == id) || (e.Removed? && e.id == id)
  }

  /** The registration at `i` was refused and the channel is still the one stored then. */
  ghost predicate RefusedAt(log: seq<Event>, id: int, i: int) {
    && 0 <= i < |log| && log[i] == Kept(id, true)
    && (forall j :: i < j < |log| ==> !Settles(log[j], id))
  }

  /** A registration of a still-stored channel was refused since the last start-up. */
  lemma {:induction false} RefusedIff(log: seq<Event>, id: int)
    ensures id in Refused({}, log) <==> exists i :: RefusedAt(log, id, i)
    decreases |log|
  {
    if log != [] {
      var last := |log| - 1;
      var init := log[..last];
      RefusedIff(init, id);
      if log[last] == Kept(id, true) {
        assert RefusedAt(log, id, last);
      } else if !Settles(log[last], id) {
        if i :| RefusedAt(init, id, i) {
          assert RefusedAt(log, id, i);
        }
        if i :| RefusedAt(log, id, i) {
          assert RefusedAt(init, id, i);
        }
      }
    }
  }

  lemma SameMirror(chs: Store, chs': Store, records: map<int, ChannelModel>)
    requires Mirrors(chs, records) && Mirrors(chs', records)
    ensures chs == chs'
  {
    SameTable(chs, chs');
  }

  lemma Restartable(s: ChannelService)
    requires s.Valid()
    ensures OwnersStored(s.ds.records, s.b2b.objs.byID)
  {
    forall id | id in s.ds.records && s.ds.records[id].clientId.Some?
      ensures s.ds.records[id].clientId.value in s.b2b.objs.byID
    {
      assert id in s.objs.byID && s.objs.byID[id].clientId.value in s.b2b.Books().units;
    }
  }

  method StartClients(ds: DataStore<ClientQuotas>, mgetOk: bool) returns (up: bool, b: B2BClientService)
    requires ds.Valid()
    ensures fresh(b) && fresh(b.objs) && fresh(b.ds) && (mgetOk ==> up)
    ensures up ==> b.Valid() && Recounted(b.Books(), map[]) && b.objs.byID == ds.records
  {
    var d := StoreRuns.Reopen(ds);
    b := new B2BClientService(d);
    up := b.Reconcile(mgetOk);
  }

  method StartChannels(b: B2BClientService, ds: DataStore<ChannelModel>, mgetOk: bool, refusing: set<int>)
    returns (up: bool, t: ChannelService)
    requires b.Valid() && ds.Valid() && Recounted(b.Books(), map[]) && OwnersStored(ds.records, b.objs.byID)
    modifies b
    ensures fresh(t) && fresh(t.objs) && fresh(t.ds) && t.b2b == b
    ensures up ==> t.Valid() && t.NotRun() == {} && t.ds.records == ds.records
    ensures mgetOk && !up ==> exists id :: id in ds.records && Wants(FromModel(ds.records[id], id)) && id in refusing
  {
    var d := StoreRuns.Reopen(ds);
    t := new ChannelService(b, d);
    up := t.Reconcile(mgetOk, refusing);
  }

  /** New services over the records of old ones: the records are enough to bring everything back, and
      what the old managers had refused is run again. */
  method StartAgain(s: ChannelService, clientsOk: bool, channelsOk: bool, refusing: set<int>)
    returns (up: bool, t: ChannelService)
    requires s.Valid()
    ensures !up ==> t == s
    ensures up ==> t.Valid() && AllFresh(t) && t.NotRun() == {}
    ensures up ==> t.objs.byID == s.objs.byID && t.b2b.objs.byID == s.b2b.objs.byID
    ensures clientsOk && channelsOk && !up ==>
              exists id :: id in s.objs.byID && Wants(s.objs.byID[id]) && id in refusing
  {
    Restartable(s);
    t := s;
    var b;
    up, b := StartClients(s.b2b.ds, clientsOk);
    if up {
      var n;
      up, n := StartChannels(b, s.ds, channelsOk, refusing);
      if up {
        SameMirror(s.objs.byID, n.objs.byID, s.ds.records);
        t := n;
      }
    }
  }

  twostate predicate AllFresh(new t: ChannelService) {
    fresh(t) && fresh(t.b2b) && fresh(t.b2b.objs) && fresh(t.b2b.ds) && fresh(t.objs) && fresh(t.ds)
  }

  /** The channel a call would store has unique refs, as Validate requires. */
  ghost predicate Validated(call: Call) {
    && (call.CreateChannel? ==> UniqueRefs(call.ch.outputs))
    && (call.UpdateChannel? ==> UniqueRefs(call.ch.outputs))
  }

  /** Validated calls, none of which gives a client new quotas. */
  ghost predicate Steady(calls: seq<Call>) {
    forall i :: 0 <= i < |calls| ==> Validated(calls[i]) && !calls[i].UpdateClient?
  }

  predicate ChannelCall(call: Call) {
    call.CreateChannel? || call.UpdateChannel? || call.DeleteChannel?
  }

  /** An event tells what happened: what is stored now, and whether its manager turned it down. */
  ghost predicate Tells(call: Call, e: Event, before: Store, after: Store) {
    match e
    case Kept(id, refused) =>
      && (call.CreateChannel? || call.UpdateChannel?) && after == before[id := call.ch.(id := id)]
      && (if call.CreateChannel? then id !in before else id == call.ch.id && id in before)
      && (refused <==> !call.addOk && Wants(call.ch))
    case Removed(id) => call.DeleteChannel? && call.id == id && after == before - {id}
    case Started => call.Restart? && after == before
    case Quiet =>
      && after == before && !call.Restart?
      && (call.DeleteChannel? ==> call.id !in before || !call.delOk)
  }

  method PerformCreate(s: ChannelService, call: Call) returns (e: Event)
    requires s.Valid() && call.CreateChannel?
    modifies s, s.b2b, s.ds, s.objs
    ensures s.Valid() && s.NotRun() == Step(old(s.NotRun()), e)
    ensures Tells(call, e, old(s.objs.byID), s.objs.byID)
    ensures Validated(call) ==> KeepsQuotas(old(s.objs.byID), s.objs.byID, s.b2b.objs.byID)
  {
    var r, id, _ := s.Create(call.ch, call.incrOk, call.setOk, call.addOk);
    if Stored(r) {
      NewlyStored(old(s.objs.byID), old(s.b2b.Books()), old(s.units), id);
    }
    return if Stored(r) then Kept(id, r.NoPid?) else Quiet;
  }

  method PerformUpdate(s: ChannelService, call: Call) returns (e: Event)
    requires s.Valid() && call.UpdateChannel?
    modifies s, s.b2b, s.ds, s.objs
    ensures s.Valid() && s.NotRun() == Step(old(s.NotRun()), e)
    ensures Tells(call, e, old(s.objs.byID), s.objs.byID)
    ensures Validated(call) ==> KeepsQuotas(old(s.objs.byID), s.objs.byID, s.b2b.objs.byID)
  {
    var r, _ := s.Update(call.ch, call.setOk, call.addOk);
    return if Stored(r) then Kept(call.ch.id, r.NoPid?) else Quiet;
  }

  method PerformDelete(s: ChannelService, call: Call) returns (e: Event)
    requires s.Valid() && call.DeleteChannel?
    modifies s, s.b2b, s.ds, s.objs
    ensures s.Valid() && s.NotRun() == Step(old(s.NotRun()), e)
    ensures Tells(call, e, old(s.objs.byID), s.objs.byID)
    ensures Validated(call) ==> KeepsQuotas(old(s.objs.byID), s.objs.byID, s.b2b.objs.byID)
  {
    var r := s.Delete(call.id, call.delOk);
    return if r.Done? then Removed(call.id) else Quiet;
  }

  method PerformChannelCall(s: ChannelService, call: Call) returns (e: Event)
    requires s.Valid() && ChannelCall(call)
    modifies s, s.b2b, s.ds, s.objs
    ensures s.Valid() && s.NotRun() == Step(old(s.NotRun()), e)
    ensures Tells(call, e, old(s.objs.byID), s.objs.byID)
    ensures Validated(call) ==> KeepsQuotas(old(s.objs.byID), s.objs.byID, s.b2b.objs.byID)
  {
    if call.CreateChannel? {
      e := PerformCreate(s, call);
    } else if call.UpdateChannel? {
      e := PerformUpdate(s, call);
    } else {
      e := PerformDelete(s, call);
    }
  }

  lemma NewlyStored(chs: Store, l: Ledger, ownerless: set<int>, id: int)
    requires id !in chs
    ensures Missing(l, ownerless, chs) - {id} == Missing(l, ownerless, chs)
  {
  }

  /** Client calls leave the channels alone; only new quotas can put a client beyond them. */
  method PerformClientCall(s: ChannelService, call: Call)
    requires s.Valid() && (call.CreateClient? || call.UpdateClient? || call.DeleteClient?)
    modifies s.b2b, s.b2b.ds, s.b2b.objs
    ensures s.Valid() && s.objs.byID == old(s.objs.byID) && s.NotRun() == old(s.NotRun())
    ensures !call.UpdateClient? && old(WithinQuotas(s.objs.byID, s.b2b.objs.byID)) ==>
              WithinQuotas(s.objs.byID, s.b2b.objs.byID)
  {
    if call.CreateClient? {
      AddClient(s, call.quotas, call.incrOk, call.setOk);
    } else if call.UpdateClient? {
      ChangeQuotas(s, call.client, call.quotas, call.setOk);
    } else {
      DropClient(s, call.client, call.delOk);
    }
  }

  method ChangeQuotas(s: ChannelService, client: int, quotas: ClientQuotas, setOk: bool)
    requires s.Valid()
    modifies s.b2b, s.b2b.ds, s.b2b.objs
    ensures s.Valid() && s.objs.byID == old(s.objs.byID) && s.NotRun() == old(s.NotRun())
  {
    var onflight: int := *;
    var _ := s.b2b.Update(client, quotas, setOk, onflight);
  }

  method AddClient(s: ChannelService, quotas: ClientQuotas, incrOk: bool, setOk: bool)
    requires s.Valid()
    modifies s.b2b, s.b2b.ds, s.b2b.objs
    ensures s.Valid() && s.objs.byID == old(s.objs.byID) && s.NotRun() == old(s.NotRun())
    ensures old(WithinQuotas(s.objs.byID, s.b2b.objs.byID)) ==> WithinQuotas(s.objs.byID, s.b2b.objs.byID)
  {
    var made := s.b2b.Create(quotas, incrOk, setOk);
    if made.Some? {
      ClientAddedMissing(old(s.b2b.Books()), s.units, s.objs.byID, made.value.id);
      if old(WithinQuotas(s.objs.byID, s.b2b.objs.byID)) {
        NewcomerWithin(old(s.b2b.Books()), s.objs.byID, old(s.b2b.objs.byID), made.value.id, quotas);
      }
    }
  }

  method DropClient(s: ChannelService, client: int, delOk: bool)
    requires s.Valid()
    modifies s.b2b, s.b2b.ds, s.b2b.objs
    ensures s.Valid() && s.objs.byID == old(s.objs.byID) && s.NotRun() == old(s.NotRun())
    ensures old(WithinQuotas(s.objs.byID, s.b2b.objs.byID)) ==> WithinQuotas(s.objs.byID, s.b2b.objs.byID)
  {
    var r := s.b2b.Delete(client, delOk);
    if r.Deleted? {
      ClientDroppedMissing(old(s.b2b.Books()), s.units, s.objs.byID, client);
    }
  }

  /** One call.  After a restart the services are new ones, or there are none. */
  method Perform(s: ChannelService, call: Call) returns (up: bool, t: ChannelService, e: Event)
    requires s.Valid()
    modifies s, s.b2b, s.b2b.ds, s.b2b.objs, s.ds, s.objs
    ensures up || (call.Restart? && t == s)
    ensures up ==> t.Valid() && (t == s || AllFresh(t))
    ensures up ==> t.NotRun() == Step(old(s.NotRun()), e) && Tells(call, e, old(s.objs.byID), t.objs.byID)
    ensures up && call.Restart? ==> e.Started?
    ensures up && Validated(call) ==> KeepsQuotas(old(s.objs.byID), t.objs.byID, t.b2b.objs.byID)
    ensures up && Validated(call) && !call.UpdateClient? && old(WithinQuotas(s.objs.byID, s.b2b.objs.byID)) ==>
              WithinQuotas(t.objs.byID, t.b2b.objs.byID)
  {
    up, t, e := true, s, Quiet;
    if call.Restart? {
      up, t := StartAgain(s, call.clientsOk, call.channelsOk, call.refusing);
      e := Started;
    } else if ChannelCall(call) {
      e := PerformChannelCall(s, call);
      if Validated(call) && old(WithinQuotas(s.objs.byID, s.b2b.objs.byID)) {
        KeptWithin(old(s.objs.byID), s.objs.byID, s.b2b.objs.byID);
      }
    } else {
      PerformClientCall(s, call);
    }
  }

  /** The log tells what each call did to the stored channels. */
  ghost predicate TellsAll(calls: seq<Call>, log: seq<Event>, stores: seq<Store>) {
    && |log| <= |calls| && |stores| == |log| + 1
    && (forall i :: 0 <= i < |log| ==> Tells(calls[i], log[i], stores[i], stores[i + 1]))
  }

  /** From one set of stored channels and refused registrations to another, along a log. */
  ghost predicate Along(calls: seq<Call>, log: seq<Event>, stores: seq<Store>,
                        before: Store, refused: set<int>, after: Store, refused': set<int>) {
    && TellsAll(calls, log, stores) && stores[0] == before && stores[|log|] == after
    && refused' == Refused(refused, log)
  }

  lemma AlongMore(calls: seq<Call>, log: seq<Event>, stores: seq<Store>,
                  before: Store, refused: set<int>, after: Store, refused': set<int>, e: Event, after': Store)
    requires Along(calls, log, stores, before, refused, after, refused')
    requires |log| < |calls| && Tells(calls[|log|], e, after, after')
    ensures Along(calls, log + [e], stores + [after'], before, refused, after', Step(refused', e))
  {
    RefusedMore(refused, log, e);
  }

  /** One call after another, until a start-up fails. */
  method Run(s: ChannelService, calls: seq<Call>)
    returns (up: bool, t: ChannelService, log: seq<Event>, ghost stores: seq<Store>)
    requires s.Valid()
    modifies s, s.b2b, s.b2b.ds, s.b2b.objs, s.ds, s.objs
    ensures TellsAll(calls, log, stores) && stores[0] == old(s.objs.byID)
    ensures up ==> |log| == |calls| && t.Valid()
    ensures up ==> Along(calls, log, stores, old(s.objs.byID), old(s.NotRun()), t.objs.byID, t.NotRun())
    ensures up && old(WithinQuotas(s.objs.byID, s.b2b.objs.byID)) && Steady(calls) ==>
              WithinQuotas(t.objs.byID, t.b2b.objs.byID)
  {
    up, t, log, stores := true, s, [], [s.objs.byID];
    ghost var safe := WithinQuotas(s.objs.byID, s.b2b.objs.byID) && Steady(calls);
    while |log| < |calls|
      invariant |log| <= |calls| && t.Valid() && (t == s || AllFresh(t))
      invariant Along(calls, log, stores, old(s.objs.byID), old(s.NotRun()), t.objs.byID, t.NotRun())
      invariant safe ==> WithinQuotas(t.objs.byID, t.b2b.objs.byID)
    {
      var e;
      ghost var was, missing := t.objs.byID, t.NotRun();
      up, t, e := Perform(t, calls[|log|]);
      if !up {
        return;
      }
      AlongMore(calls, log, stores, old(s.objs.byID), old(s.NotRun()), was, missing, e, t.objs.byID);
      log, stores := log + [e], stores + [t.objs.byID];
    }
  }

  /** After any run, up to a start-up that fails, every counter and ownership index equals a recount over the
      stored channels, and so do the managers' units exactly when no registration of a still-stored channel
      was refused since the last start-up.  A run of validated calls that changes no client's quotas
      never takes a client beyond them. */
  method Serve(s: ChannelService, calls: seq<Call>)
    returns (up: bool, t: ChannelService, log: seq<Event>, ghost stores: seq<Store>)
    requires s.Valid()
    modifies s, s.b2b, s.b2b.ds, s.b2b.objs, s.ds, s.objs
    ensures TellsAll(calls, log, stores) && stores[0] == old(s.objs.byID)
    ensures up ==> |log| == |calls| && stores[|calls|] == t.objs.byID
    ensures up ==> t.Valid() && Recounted(t.b2b.Books(), t.objs.byID)
    ensures up ==> t.NotRun() == Refused(old(s.NotRun()), log)
    ensures up ==> (UnitsExact(t.b2b.Books(), t.units, t.objs.byID) <==> Refused(old(s.NotRun()), log) == {})
    ensures up && old(WithinQuotas(s.objs.byID, s.b2b.objs.byID)) && Steady(calls) ==>
              WithinQuotas(t.objs.byID, t.b2b.objs.byID)
  {
    up, t, log, stores := Run(s, calls);
    if up {
      ExactIffNothingMissing(t.b2b.Books(), t.units, t.objs.byID);
    }
  }
}

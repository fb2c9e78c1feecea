/** The counters and ownership indices of the client service, and what they must equal: a recount over
    the stored channels (internal/service/b2b_client.go, internal/service/channel.go). */
module Ledgers {
  import Sets
  import opened Wrappers
  import opened Channels

  type Store = map<int, Channel>

  // ---- Recounting ----

  ghost function Owned(chs: Store, client: int): (r: set<int>) {
    set id | id in chs && chs[id].clientId == Some(client)
  }

  ghost function EnabledOf(chs: Store, client: int): (r: set<int>) {
    set id | id in chs && chs[id].clientId == Some(client) && chs[id].enabled
  }

  /** Positions of the enabled outputs with this ref. */
  ghost function Places(outputs: seq<Output>, ref: string): (r: set<int>) {
    set i | 0 <= i < |outputs| && outputs[i].enabled && outputs[i].ref == ref
  }

  /** How many of them there are, counted one by one. */
  function Uses(outputs: seq<Output>, ref: string): (r: nat) {
    if outputs == [] then 0
    else
      var last := |outputs| - 1;
      Uses(outputs[..last], ref) + if outputs[last].enabled && outputs[last].ref == ref then 1 else 0
  }

  lemma PlacesLast(init: seq<Output>, o: Output, ref: string)
    ensures Places(init + [o], ref) == Places(init, ref) + if o.enabled && o.ref == ref then {|init|} else {}
    ensures |init| !in Places(init, ref)
  {
  }

  lemma {:induction false} UsesArePlaces(outputs: seq<Output>, ref: string)
    ensures Uses(outputs, ref) == |Places(outputs, ref)|
    decreases |outputs|
  {
    if outputs == [] {
      assert Places(outputs, ref) == {};
    } else {
      var last := |outputs| - 1;
      UsesArePlaces(outputs[..last], ref);
      PlacesLast(outputs[..last], outputs[last], ref);
      assert outputs == outputs[..last] + [outputs[last]];
    }
  }

  /** The enabled outputs with this ref in all of a client's channels, as (channel, position). */
  ghost function OutputsOf(chs: Store, client: int, ref: string): (r: set<(int, int)>) {
    set id, i | id in chs && chs[id].clientId == Some(client) && i in Places(chs[id].outputs, ref) :: (id, i)
  }

  ghost function OwnerlessEnabled(chs: Store): (r: set<int>) {
    set id | id in chs && chs[id].clientId.None? && chs[id].enabled
  }

  // ---- The incremental state ----

  datatype Ledger = Ledger(
    channelClient: map<int, int>,
    clientChannels: map<int, seq<int>>,
    enabledChannels: map<int, int>,
    enabledOutputs: map<int, map<string, int>>,
    units: map<int, set<int>>)

  /** Reading a Go map of counters. */
  function Count<K>(m: map<K, int>, k: K): (r: int) {
    if k in m then m[k] else 0
  }

  function List(m: map<int, seq<int>>, k: int): (r: seq<int>) {
    if k in m then m[k] else []
  }

  ghost predicate NoRepeats(q: seq<int>) {
    forall i, j :: 0 <= i < j < |q| ==> q[i] != q[j]
  }

  ghost predicate ListsExactly(q: seq<int>, s: set<int>) {
    NoRepeats(q) && forall x :: x in q <==> x in s
  }

  ghost predicate OwnersRight(l: Ledger, chs: Store) {
    && (forall id :: id in l.channelClient <==> id in chs && chs[id].clientId.Some?)
    && (forall id :: id in l.channelClient ==> chs[id].clientId == Some(l.channelClient[id]))
    && (forall c: int :: ListsExactly(List(l.clientChannels, c), Owned(chs, c)))
  }

  ghost predicate CountersRight(l: Ledger, chs: Store) {
    && (forall c: int :: Count(l.enabledChannels, c) == |EnabledOf(chs, c)|)
    && (forall c: int, r: string :: c in l.enabledOutputs ==> Count(l.enabledOutputs[c], r) == |OutputsOf(chs, c, r)|)
  }

  /** The managers are those of known clients and run nothing but the client's own channels.  They may
      run fewer: a manager without a free PID refuses a channel that is stored already. */
  ghost predicate UnitsRight(l: Ledger, chs: Store) {
    && (forall c: int :: c in l.units ==> l.units[c] <= Owned(chs, c))
    && (forall c: int :: c in l.units ==> c in l.enabledOutputs)
    && (forall id :: id in chs && chs[id].clientId.Some? ==> chs[id].clientId.value in l.units)
  }

  /** Every counter and index equals a recount over the stored channels. */
  ghost predicate Recounted(l: Ledger, chs: Store) {
    OwnersRight(l, chs) && CountersRight(l, chs) && UnitsRight(l, chs)
  }

  // ---- Stored channels that no manager runs ----

  /** Channels that some manager is asked to run: all channels of clients, and the enabled ones of nobody. */
  predicate Wants(ch: Channel) {
    ch.clientId.Some? || ch.enabled
  }

  ghost predicate Runs(l: Ledger, ownerless: set<int>, id: int, ch: Channel) {
    if ch.clientId.Some? then ch.clientId.value in l.units && id in l.units[ch.clientId.value] else id in ownerless
  }

  ghost function Missing(l: Ledger, ownerless: set<int>, chs: Store): (r: set<int>) {
    set id | id in chs && Wants(chs[id]) && !Runs(l, ownerless, id, chs[id])
  }

  /** The units of every manager, and of the ownerless one, equal a recount over the stored channels. */
  ghost predicate UnitsExact(l: Ledger, ownerless: set<int>, chs: Store) {
    && (forall c: int :: c in l.units ==> l.units[c] == Owned(chs, c))
    && ownerless == OwnerlessEnabled(chs)
  }

  lemma ExactIffNothingMissing(l: Ledger, ownerless: set<int>, chs: Store)
    requires UnitsRight(l, chs) && ownerless <= OwnerlessEnabled(chs)
    ensures UnitsExact(l, ownerless, chs) <==> Missing(l, ownerless, chs) == {}
  {
    if Missing(l, ownerless, chs) == {} {
      assert forall id :: id in chs && Wants(chs[id]) ==> Runs(l, ownerless, id, chs[id]) by {
        assert forall id :: id in chs && Wants(chs[id]) ==> id !in Missing(l, ownerless, chs);
      }
      assert ownerless == OwnerlessEnabled(chs);
    } else {
      var id := Sets.Element(Missing(l, ownerless, chs));
      if chs[id].clientId.Some? {
        assert id in Owned(chs, chs[id].clientId.value);
      } else {
        assert id in OwnerlessEnabled(chs);
      }
    }
  }

  // ---- What RegisterChannel and UnregisterChannel do ----

  function Signed(up: bool, n: int): (r: int) {
    if up then n else -n
  }

  /** Both kinds of counters of one client move by what the channel contributes; no other counter moves. */
  ghost predicate Counted(ec: map<int, int>, eo: map<int, map<string, int>>,
                          ec': map<int, int>, eo': map<int, map<string, int>>,
                          client: int, ch: Channel, up: bool) {
    && (forall c: int :: Count(ec', c) == Count(ec, c) + if c == client && ch.enabled then Signed(up, 1) else 0)
    && eo'.Keys == eo.Keys
    && (forall c: int, r: string :: c in eo && c != client ==> Count(eo'[c], r) == Count(eo[c], r))
    && (forall r: string :: client in eo ==>
        Count(eo'[client], r) == Count(eo[client], r) + Signed(up, Uses(ch.outputs, r)))
  }

  /** `ok` is the manager's answer; all else is done before the manager is asked. */
  ghost predicate Registered(l: Ledger, l': Ledger, client: int, ch: Channel, ok: bool) {
    && l'.channelClient == l.channelClient[ch.id := client]
    && l'.clientChannels == l.clientChannels[client := List(l.clientChannels, client) + [ch.id]]
    && Counted(l.enabledChannels, l.enabledOutputs, l'.enabledChannels, l'.enabledOutputs, client, ch, true)
    && client in l.units && l'.units == l.units[client := l.units[client] + if ok then {ch.id} else {}]
  }

  /** First occurrence removed (the helper `remove`). */
  function RemoveFirst(q: seq<int>, x: int): (r: seq<int>) {
    if q == [] then []
    else if q[0] == x then q[1..]
    else [q[0]] + RemoveFirst(q[1..], x)
  }

  lemma RemoveFirstFrom(q: seq<int>, i: nat, x: int)
    requires i < |q|
    ensures q[i] == x ==> q[..i] + RemoveFirst(q[i..], x) == q[..i] + q[i + 1..]
    ensures q[i] != x ==> q[..i] + RemoveFirst(q[i..], x) == q[..i + 1] + RemoveFirst(q[i + 1..], x)
  {
    var t, u := q[i..], q[i + 1..];
    assert t[0] == q[i] && t[1..] == u;
    if q[i] != x {
      Regroup(q[..i], q[i], RemoveFirst(u, x));
      assert q[..i] + [q[i]] == q[..i + 1];
    }
  }

  lemma Regroup(a: seq<int>, x: int, b: seq<int>)
    ensures a + ([x] + b) == (a + [x]) + b
  {
  }

  ghost predicate Unregistered(l: Ledger, l': Ledger, client: int, ch: Channel) {
    && l'.channelClient == l.channelClient - {ch.id}
    && l'.clientChannels == l.clientChannels[client := RemoveFirst(List(l.clientChannels, client), ch.id)]
    && Counted(l.enabledChannels, l.enabledOutputs, l'.enabledChannels, l'.enabledOutputs, client, ch, false)
    && client in l.units && l'.units == l.units[client := l.units[client] - {ch.id}]
  }

  lemma {:induction false} RemoveFirstLists(q: seq<int>, x: int)
    requires NoRepeats(q)
    ensures NoRepeats(RemoveFirst(q, x))
    ensures forall y :: y in RemoveFirst(q, x) <==> y in q && y != x
    decreases |q|
  {
    if q != [] {
      var t := q[1..];
      assert NoRepeats(t);
      assert forall y :: y in q <==> y == q[0] || y in t;
      assert q[0] !in t;
      RemoveFirstLists(t, x);
    }
  }

  /** How many enabled outputs a channel adds: pairing its id with positions loses none. */
  lemma {:induction false} PairsSize(id: int, places: set<int>)
    ensures |set i | i in places :: (id, i)| == |places|
    decreases |places|
  {
    var pairs := set i | i in places :: (id, i);
    if places == {} {
      assert pairs == {};
    } else {
      var x := Sets.Element(places);
      PairsSize(id, places - {x});
      assert pairs == (set i | i in places - {x} :: (id, i)) + {(id, x)};
    }
  }

  // ---- One more channel in the store ----

  lemma OwnedWith(chs: Store, ch: Channel, c: int)
    requires ch.id !in chs
    ensures Owned(chs[ch.id := ch], c) == Owned(chs, c) + if ch.clientId == Some(c) then {ch.id} else {}
    ensures ch.id !in Owned(chs, c)
  {
  }

  lemma EnabledWith(chs: Store, ch: Channel, c: int)
    requires ch.id !in chs
    ensures |EnabledOf(chs[ch.id := ch], c)| == |EnabledOf(chs, c)|
            + if ch.clientId == Some(c) && ch.enabled then 1 else 0
  {
    assert EnabledOf(chs[ch.id := ch], c) == EnabledOf(chs, c)
           + if ch.clientId == Some(c) && ch.enabled then {ch.id} else {};
  }

  lemma OutputsSplit(chs: Store, ch: Channel, c: int, r: string, added: set<(int, int)>)
    requires ch.id !in chs
    requires added == if ch.clientId == Some(c) then set i | i in Places(ch.outputs, r) :: (ch.id, i) else {}
    ensures OutputsOf(chs[ch.id := ch], c, r) == OutputsOf(chs, c, r) + added
    ensures OutputsOf(chs, c, r) !! added
  {
  }

  lemma OutputsWith(chs: Store, ch: Channel, c: int, r: string)
    requires ch.id !in chs
    ensures |OutputsOf(chs[ch.id := ch], c, r)| == |OutputsOf(chs, c, r)|
            + if ch.clientId == Some(c) then |Places(ch.outputs, r)| else 0
  {
    var places := Places(ch.outputs, r);
    OutputsSplit(chs, ch, c, r, if ch.clientId == Some(c) then set i | i in places :: (ch.id, i) else {});
    PairsSize(ch.id, places);
  }

  lemma ListsMore(q: seq<int>, s: set<int>, x: int)
    requires ListsExactly(q, s) && x !in s
    ensures ListsExactly(q + [x], s + {x})
  {
  }

  lemma OwnedMore(q: seq<int>, chs: Store, ch: Channel, c: int)
    requires ListsExactly(q, Owned(chs, c)) && ch.id !in chs
    ensures ListsExactly(if ch.clientId == Some(c) then q + [ch.id] else q, Owned(chs[ch.id := ch], c))
  {
    OwnedWith(chs, ch, c);
    ListsMore(q, Owned(chs, c), ch.id);
  }

  lemma RegisterOwners(l: Ledger, l': Ledger, chs: Store, client: int, ch: Channel, ok: bool)
    requires OwnersRight(l, chs) && ch.id !in chs && ch.clientId == Some(client)
    requires Registered(l, l', client, ch, ok)
    ensures OwnersRight(l', chs[ch.id := ch])
  {
    forall c: int
      ensures ListsExactly(List(l'.clientChannels, c), Owned(chs[ch.id := ch], c))
    {
      OwnedMore(List(l.clientChannels, c), chs, ch, c);
    }
  }

  lemma RegisterUnits(l: Ledger, l': Ledger, chs: Store, client: int, ch: Channel, ok: bool)
    requires UnitsRight(l, chs) && ch.id !in chs && ch.clientId == Some(client)
    requires Registered(l, l', client, ch, ok)
    ensures UnitsRight(l', chs[ch.id := ch])
  {
    forall c: int
      ensures c in l'.units ==> l'.units[c] <= Owned(chs[ch.id := ch], c)
    {
      OwnedWith(chs, ch, c);
    }
  }

  lemma CountedUp(l: Ledger, l': Ledger, chs: Store, client: int, ch: Channel)
    requires CountersRight(l, chs) && ch.id !in chs && ch.clientId == Some(client)
    requires Counted(l.enabledChannels, l.enabledOutputs, l'.enabledChannels, l'.enabledOutputs, client, ch, true)
    ensures CountersRight(l', chs[ch.id := ch])
  {
    forall c: int
      ensures Count(l'.enabledChannels, c) == |EnabledOf(chs[ch.id := ch], c)|
    {
      EnabledWith(chs, ch, c);
    }
    forall c: int, r: string | c in l'.enabledOutputs
      ensures Count(l'.enabledOutputs[c], r) == |OutputsOf(chs[ch.id := ch], c, r)|
    {
      OutputsWith(chs, ch, c, r);
      UsesArePlaces(ch.outputs, r);
    }
  }

  lemma CountedDown(l: Ledger, l': Ledger, rest: Store, client: int, ch: Channel)
    requires ch.id !in rest && ch.clientId == Some(client)
    requires CountersRight(l, rest[ch.id := ch])
             && Counted(l.enabledChannels, l.enabledOutputs, l'.enabledChannels, l'.enabledOutputs, client, ch, false)
    ensures CountersRight(l', rest)
  {
    forall c: int
      ensures Count(l'.enabledChannels, c) == |EnabledOf(rest, c)|
    {
      EnabledWith(rest, ch, c);
    }
    forall c: int, r: string | c in l'.enabledOutputs
      ensures Count(l'.enabledOutputs[c], r) == |OutputsOf(rest, c, r)|
    {
      OutputsWith(rest, ch, c, r);
      UsesArePlaces(ch.outputs, r);
    }
  }

  lemma UnregisterOwners(l: Ledger, l': Ledger, rest: Store, client: int, ch: Channel)
    requires ch.id !in rest && ch.clientId == Some(client)
    requires OwnersRight(l, rest[ch.id := ch]) && Unregistered(l, l', client, ch)
    ensures OwnersRight(l', rest)
  {
    var all := rest[ch.id := ch];
    assert forall id :: id in rest ==> id in all && all[id] == rest[id];
    forall c: int
      ensures ListsExactly(List(l'.clientChannels, c), Owned(rest, c))
    {
      OwnedWith(rest, ch, c);
      assert ListsExactly(List(l.clientChannels, c), Owned(all, c));
      RemoveFirstLists(List(l.clientChannels, c), ch.id);
    }
  }

  lemma UnregisterUnits(l: Ledger, l': Ledger, rest: Store, client: int, ch: Channel)
    requires ch.id !in rest && ch.clientId == Some(client)
    requires UnitsRight(l, rest[ch.id := ch]) && Unregistered(l, l', client, ch)
    ensures UnitsRight(l', rest)
  {
    var all := rest[ch.id := ch];
    assert forall id :: id in rest ==> id in all && all[id] == rest[id];
    forall c: int
      ensures c in l'.units ==> l'.units[c] <= Owned(rest, c)
    {
      OwnedWith(rest, ch, c);
    }
  }

  /** Registering a channel and storing it keeps every counter and index equal to a recount. */
  lemma RegisterRecounted(l: Ledger, l': Ledger, chs: Store, client: int, ch: Channel, ok: bool)
    requires Recounted(l, chs) && ch.id !in chs && ch.clientId == Some(client)
    requires Registered(l, l', client, ch, ok)
    ensures Recounted(l', chs[ch.id := ch])
  {
    RegisterOwners(l, l', chs, client, ch, ok);
    CountedUp(l, l', chs, client, ch);
    RegisterUnits(l, l', chs, client, ch, ok);
  }

  /** Unregistering a channel undoes its registration: what is left is a recount without it. */
  lemma UnregisterRecounted(l: Ledger, l': Ledger, rest: Store, client: int, ch: Channel)
    requires ch.id !in rest && ch.clientId == Some(client)
    requires Recounted(l, rest[ch.id := ch]) && Unregistered(l, l', client, ch)
    ensures Recounted(l', rest)
  {
    UnregisterOwners(l, l', rest, client, ch);
    CountedDown(l, l', rest, client, ch);
    UnregisterUnits(l, l', rest, client, ch);
  }

  /** Registering adds the new channel to the missing ones exactly when its manager refuses it. */
  lemma RegisterMissing(l: Ledger, l': Ledger, ownerless: set<int>, chs: Store, client: int, ch: Channel, ok: bool)
    requires UnitsRight(l, chs) && ch.id !in chs && ch.clientId == Some(client)
    requires Registered(l, l', client, ch, ok)
    ensures Missing(l', ownerless, chs[ch.id := ch]) == Missing(l, ownerless, chs) + if ok then {} else {ch.id}
  {
    OwnedWith(chs, ch, client);
  }

  lemma UnregisterMissing(l: Ledger, l': Ledger, ownerless: set<int>, rest: Store, client: int, ch: Channel)
    requires ch.id !in rest && ch.clientId == Some(client) && Unregistered(l, l', client, ch)
    ensures Missing(l', ownerless, rest) == Missing(l, ownerless, rest[ch.id := ch]) - {ch.id}
  {
  }

  /** The same for the ownerless manager. */
  lemma OwnerlessMissing(l: Ledger, ownerless: set<int>, chs: Store, ch: Channel)
    requires ch.id !in chs && ch.clientId.None? && ch.id !in ownerless
    ensures Missing(l, ownerless, chs[ch.id := ch]) == Missing(l, ownerless, chs) + if ch.enabled then {ch.id} else {}
    ensures Missing(l, ownerless + {ch.id}, chs[ch.id := ch]) == Missing(l, ownerless, chs)
    ensures ch.id !in Missing(l, ownerless, chs)
  {
  }

  lemma OwnerlessGone(l: Ledger, ownerless: set<int>, rest: Store, ch: Channel)
    requires ch.id !in rest && ch.clientId.None?
    ensures Missing(l, ownerless - {ch.id}, rest) == Missing(l, ownerless, rest[ch.id := ch]) - {ch.id}
    ensures Missing(l, ownerless, rest) == Missing(l, ownerless, rest[ch.id := ch]) - {ch.id}
  {
  }

  /** A channel without a client touches no counter and no index of the client service. */
  lemma OwnerlessRecounted(l: Ledger, chs: Store, ch: Channel)
    requires ch.id !in chs && ch.clientId.None?
    ensures Recounted(l, chs) <==> Recounted(l, chs[ch.id := ch])
  {
    forall c: int
      ensures Owned(chs[ch.id := ch], c) == Owned(chs, c)
      ensures EnabledOf(chs[ch.id := ch], c) == EnabledOf(chs, c)
    {
      OwnedWith(chs, ch, c);
      assert EnabledOf(chs[ch.id := ch], c) == EnabledOf(chs, c);
    }
    forall c: int, r: string
      ensures OutputsOf(chs[ch.id := ch], c, r) == OutputsOf(chs, c, r)
    {
      assert OutputsOf(chs[ch.id := ch], c, r) == OutputsOf(chs, c, r);
    }
    OwnerlessOwners(l, chs, ch);
    assert forall id :: id in chs ==> id in chs[ch.id := ch] && chs[ch.id := ch][id] == chs[id];
  }

  lemma OwnerlessOwners(l: Ledger, chs: Store, ch: Channel)
    requires ch.id !in chs && ch.clientId.None?
    ensures OwnersRight(l, chs) <==> OwnersRight(l, chs[ch.id := ch])
  {
    var all := chs[ch.id := ch];
    forall c: int
      ensures Owned(all, c) == Owned(chs, c)
    {
      OwnedWith(chs, ch, c);
    }
    assert forall id :: id in chs && chs[id].clientId.Some? <==> id in all && all[id].clientId.Some?;
    assert forall id :: id in chs ==> all[id] == chs[id];
  }

  // ---- Clients come and go ----

  lemma NothingOwned(l: Ledger, chs: Store, c: int)
    requires UnitsRight(l, chs) && c !in l.units
    ensures Owned(chs, c) == {}
    ensures forall r: string :: OutputsOf(chs, c, r) == {}
  {
    assert forall id :: id in chs && chs[id].clientId.Some? ==> chs[id].clientId.value != c;
    assert Owned(chs, c) == {};
    forall r: string
      ensures OutputsOf(chs, c, r) == {}
    {
      assert OutputsOf(chs, c, r) == {};
    }
  }

  /** A new client starts with a fresh table of output counters and an empty manager. */
  function WithClient(l: Ledger, c: int): (r: Ledger) {
    l.(enabledOutputs := l.enabledOutputs[c := map[]], units := l.units[c := {}])
  }

  /** Deleting a client drops its manager only; its counters stay behind. */
  function WithoutClient(l: Ledger, c: int): (r: Ledger) {
    l.(units := l.units - {c})
  }

  lemma ClientAddedRecounted(l: Ledger, chs: Store, c: int)
    requires Recounted(l, chs) && c !in l.units
    ensures Recounted(WithClient(l, c), chs)
  {
    NothingOwned(l, chs, c);
  }

  /** The guard on Delete (no channels attached) is what keeps every owner alive. */
  lemma ClientDroppedRecounted(l: Ledger, chs: Store, c: int)
    requires Recounted(l, chs)
    ensures Recounted(WithoutClient(l, c), chs) <==> List(l.clientChannels, c) == [] || c !in l.units
  {
    var l' := WithoutClient(l, c);
    assert ListsExactly(List(l.clientChannels, c), Owned(chs, c));
    if c !in l.units {
      assert l'.units == l.units;
    } else if List(l.clientChannels, c) == [] {
      assert forall id :: id in chs ==> id !in Owned(chs, c);
      assert UnitsRight(l', chs);
    } else {
      var id := List(l.clientChannels, c)[0];
      assert id in List(l.clientChannels, c);
      assert id in Owned(chs, c);
      assert chs[id].clientId.value !in l'.units;
    }
  }

  lemma ClientAddedMissing(l: Ledger, ownerless: set<int>, chs: Store, c: int)
    requires UnitsRight(l, chs) && c !in l.units
    ensures Missing(WithClient(l, c), ownerless, chs) == Missing(l, ownerless, chs)
  {
    assert forall id :: id in chs && chs[id].clientId.Some? ==> chs[id].clientId.value != c;
  }

  lemma ClientDroppedMissing(l: Ledger, ownerless: set<int>, chs: Store, c: int)
    requires UnitsRight(WithoutClient(l, c), chs)
    ensures Missing(WithoutClient(l, c), ownerless, chs) == Missing(l, ownerless, chs)
  {
    assert forall id :: id in chs && chs[id].clientId.Some? ==> chs[id].clientId.value != c;
  }

  /** Where a restart begins: clients known, no channel registered. */
  lemma FreshRecounted(l: Ledger)
    requires l.channelClient == map[] && l.clientChannels == map[] && l.enabledChannels == map[]
    requires forall c :: c in l.units ==> c in l.enabledOutputs
    requires forall c :: c in l.enabledOutputs ==> l.enabledOutputs[c] == map[]
    requires forall c :: c in l.units ==> l.units[c] == {}
    ensures Recounted(l, map[])
  {
    var none: Store := map[];
    forall c: int
      ensures Owned(none, c) == {} && EnabledOf(none, c) == {}
    {
    }
    forall c: int, r: string
      ensures OutputsOf(none, c, r) == {}
    {
    }
  }
}

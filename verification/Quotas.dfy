/** Client quotas, the view of a client that the quota checks read, the checks themselves, and what a
    passed check is worth (internal/service/channel.go, internal/domain/b2b-client). */
module Quotas {
  import Sets
  import opened Wrappers
  import opened Channels
  import opened Ledgers

  datatype OutputQuota = OutputQuota(ref: string, quota: int)

  /** `online` and `maxPreflight` are the limits of the client's process manager. */
  datatype ClientQuotas = ClientQuotas(enabledChannels: int, enabledOutputs: seq<OutputQuota>, online: int,
                                       maxPreflight: int)

  datatype OutputUsage = OutputUsage(ref: string, quota: int, usage: int)

  datatype OnlineUsage = OnlineUsage(quota: int, maxPreflight: int, usage: int)

  datatype ClientView = ClientView(
    id: int,
    channelQuota: int,
    channelUsage: int,
    outputs: seq<OutputUsage>,
    online: OnlineUsage,
    channelIds: seq<int>)

  /** A refused call says which resource, the usage it would have had and the quota. */
  datatype Refusal =
    | EnabledChannel(usage: int, quota: int)
    | EnabledOutput(ref: string, usage: int, quota: int)

  // ---- The checks ----

  /** A ref listed twice counts with its last entry. */
  function LastFor(items: seq<OutputUsage>, ref: string): (r: Option<OutputUsage>) {
    if items == [] then None
    else if items[|items| - 1].ref == ref then Some(items[|items| - 1])
    else LastFor(items[..|items| - 1], ref)
  }

  function QuotaFor(items: seq<OutputQuota>, ref: string): (r: Option<int>) {
    if items == [] then None
    else if items[|items| - 1].ref == ref then Some(items[|items| - 1].quota)
    else QuotaFor(items[..|items| - 1], ref)
  }

  method SliceToMapByRef(items: seq<OutputUsage>) returns (m: map<string, OutputUsage>)
    ensures forall ref :: LastFor(items, ref) == if ref in m then Some(m[ref]) else None
  {
    m := map[];
    var i := 0;
    while i < |items|
      invariant 0 <= i <= |items|
      invariant forall ref :: LastFor(items[..i], ref) == if ref in m then Some(m[ref]) else None
    {
      assert items[..i + 1][..i] == items[..i];
      m := m[items[i].ref := items[i]];
      i := i + 1;
    }
    assert items[..i] == items;
  }

  predicate Free(v: ClientView, ref: string) {
    var q := LastFor(v.outputs, ref);
    q.Some? ==> q.value.usage + 1 <= q.value.quota
  }

  predicate ChannelFree(v: ClientView) {
    v.channelUsage + 1 <= v.channelQuota
  }

  predicate WasEnabled(prev: Channel, ref: string) {
    var i := LastIndex(prev.outputs, ref);
    i >= 0 && prev.outputs[i].enabled
  }

  ghost predicate FitsNew(v: ClientView, ch: Channel) {
    && (ch.enabled ==> ChannelFree(v))
    && (forall i :: 0 <= i < |ch.outputs| && ch.outputs[i].enabled ==> Free(v, ch.outputs[i].ref))
  }

  ghost predicate FitsChange(v: ClientView, prev: Channel, next: Channel) {
    && (!prev.enabled && next.enabled ==> ChannelFree(v))
    && (forall i :: 0 <= i < |next.outputs| && next.outputs[i].enabled && !WasEnabled(prev, next.outputs[i].ref) ==>
          Free(v, next.outputs[i].ref))
  }

  /** What a refusal may say: a resource that is used up, with its numbers. */
  ghost predicate Justified(v: ClientView, ch: Channel, r: Refusal) {
    match r
    case EnabledChannel(usage, quota) =>
      ch.enabled && !ChannelFree(v) && usage == v.channelUsage + 1 && quota == v.channelQuota
    case EnabledOutput(ref, usage, quota) =>
      && (exists i :: 0 <= i < |ch.outputs| && ch.outputs[i].enabled && ch.outputs[i].ref == ref)
      && !Free(v, ref) && LastFor(v.outputs, ref) == Some(OutputUsage(ref, quota, usage - 1))
  }

  lemma {:induction false} LastForRef(items: seq<OutputUsage>, ref: string)
    ensures LastFor(items, ref).Some? ==> LastFor(items, ref).value.ref == ref
    decreases |items|
  {
    if items != [] {
      LastForRef(items[..|items| - 1], ref);
    }
  }

  method CheckEnabledChannelQuota(v: ClientView, ch: Channel) returns (r: Option<Refusal>)
    ensures r.None? <==> (ch.enabled ==> ChannelFree(v))
    ensures r.Some? ==> r.value.EnabledChannel? && Justified(v, ch, r.value)
  {
    if !ch.enabled {
      return None;
    }
    if v.channelUsage + 1 > v.channelQuota {
      return Some(EnabledChannel(v.channelUsage + 1, v.channelQuota));
    }
    return None;
  }

  method CheckEnabledOutputQuotas(v: ClientView, ch: Channel) returns (r: Option<Refusal>)
    ensures r.None? <==> forall i :: 0 <= i < |ch.outputs| && ch.outputs[i].enabled ==> Free(v, ch.outputs[i].ref)
    ensures r.Some? ==> r.value.EnabledOutput? && Justified(v, ch, r.value)
  {
    var byRef := SliceToMapByRef(v.outputs);
    var i := 0;
    while i < |ch.outputs|
      invariant 0 <= i <= |ch.outputs|
      invariant forall k :: 0 <= k < i && ch.outputs[k].enabled ==> Free(v, ch.outputs[k].ref)
    {
      var output := ch.outputs[i];
      if output.enabled && output.ref in byRef {
        var q := byRef[output.ref];
        if q.usage + 1 > q.quota {
          LastForRef(v.outputs, output.ref);
          assert LastFor(v.outputs, output.ref) == Some(q);
          return Some(EnabledOutput(output.ref, q.usage + 1, q.quota));
        }
      }
      assert output.enabled ==>
               LastFor(v.outputs, output.ref) == if output.ref in byRef then Some(byRef[output.ref]) else None;
      i := i + 1;
    }
    return None;
  }

  /** The channel itself is checked first. */
  method EnforceQuotaOnCreate(v: ClientView, ch: Channel) returns (r: Option<Refusal>)
    ensures r.None? <==> FitsNew(v, ch)
    ensures r.Some? && r.value.EnabledChannel? <==> ch.enabled && !ChannelFree(v)
    ensures r.Some? ==> Justified(v, ch, r.value)
  {
    r := CheckEnabledChannelQuota(v, ch);
    if r.None? {
      r := CheckEnabledOutputQuotas(v, ch);
    }
  }

  /** Only what the update newly enables is checked. */
  method EnforceQuotaOnUpdate(v: ClientView, prev: Channel, next: Channel) returns (r: Option<Refusal>)
    ensures r.None? <==> FitsChange(v, prev, next)
    ensures r.Some? && r.value.EnabledChannel? <==> !prev.enabled && next.enabled && !ChannelFree(v)
    ensures r.Some? ==> Justified(v, next, r.value)
  {
    if !prev.enabled && next.enabled {
      r := CheckEnabledChannelQuota(v, next);
      if r.Some? {
        return;
      }
    }
    var prevOutputs := OutputsByRef(prev.outputs);
    var byRef := SliceToMapByRef(v.outputs);
    var i := 0;
    while i < |next.outputs|
      invariant 0 <= i <= |next.outputs|
      invariant forall k :: 0 <= k < i && next.outputs[k].enabled && !WasEnabled(prev, next.outputs[k].ref) ==>
                  Free(v, next.outputs[k].ref)
    {
      var output := next.outputs[i];
      assert (output.ref in prevOutputs && prevOutputs[output.ref].output.enabled) == WasEnabled(prev, output.ref);
      assert LastFor(v.outputs, output.ref) == if output.ref in byRef then Some(byRef[output.ref]) else None;
      if output.enabled && !(output.ref in prevOutputs && prevOutputs[output.ref].output.enabled)
         && output.ref in byRef {
        var q := byRef[output.ref];
        if q.usage + 1 > q.quota {
          LastForRef(v.outputs, output.ref);
          return Some(EnabledOutput(output.ref, q.usage + 1, q.quota));
        }
      }
      i := i + 1;
    }
    return None;
  }

  // ---- What the view shows ----

  /** The view shows the recounted usage of a client, and its online limits. */
  ghost predicate Shows(v: ClientView, q: ClientQuotas, chs: Store, c: int) {
    && v.id == c && v.online.quota == q.online && v.online.maxPreflight == q.maxPreflight
    && v.channelQuota == q.enabledChannels && v.channelUsage == |EnabledOf(chs, c)|
    && |v.outputs| == |q.enabledOutputs|
    && (forall i :: 0 <= i < |v.outputs| ==>
          v.outputs[i] == OutputUsage(q.enabledOutputs[i].ref, q.enabledOutputs[i].quota,
                                      |OutputsOf(chs, c, q.enabledOutputs[i].ref)|))
    && ListsExactly(v.channelIds, Owned(chs, c))
  }

  lemma {:induction false} LastShown(items: seq<OutputUsage>, qs: seq<OutputQuota>, chs: Store, c: int, ref: string)
    requires |items| == |qs|
    requires forall i :: 0 <= i < |items| ==>
               items[i] == OutputUsage(qs[i].ref, qs[i].quota, |OutputsOf(chs, c, qs[i].ref)|)
    ensures LastFor(items, ref).Some? <==> QuotaFor(qs, ref).Some?
    ensures LastFor(items, ref).Some? ==>
              LastFor(items, ref).value == OutputUsage(ref, QuotaFor(qs, ref).value, |OutputsOf(chs, c, ref)|)
    decreases |items|
  {
    if items != [] {
      LastShown(items[..|items| - 1], qs[..|qs| - 1], chs, c, ref);
    }
  }

  // ---- What a passed check is worth ----

  /** Going from one store to the other raises no client's usage above its quota. */
  ghost predicate KeepsQuotas(before: Store, after: Store, clients: map<int, ClientQuotas>) {
    && (forall c :: c in clients && |EnabledOf(after, c)| > |EnabledOf(before, c)| ==>
        |EnabledOf(after, c)| <= clients[c].enabledChannels)
    && (forall c, r :: c in clients ==> KeepsOutputQuota(before, after, clients[c], c, r))
  }

  ghost predicate KeepsOutputQuota(before: Store, after: Store, q: ClientQuotas, c: int, r: string) {
    QuotaFor(q.enabledOutputs, r).Some? && |OutputsOf(after, c, r)| > |OutputsOf(before, c, r)| ==>
      |OutputsOf(after, c, r)| <= QuotaFor(q.enabledOutputs, r).value
  }

  lemma UniquePlaces(outputs: seq<Output>, r: string)
    requires UniqueRefs(outputs)
    ensures |Places(outputs, r)| <= 1
  {
    if Places(outputs, r) != {} {
      var i := Sets.Element(Places(outputs, r));
      assert Places(outputs, r) == {i};
    }
  }

  /** The last entry for an enabled ref being enabled means that the ref was counted already. */
  lemma WasEnabledPlaces(prev: Channel, r: string)
    ensures WasEnabled(prev, r) ==> |Places(prev.outputs, r)| >= 1
  {
    if WasEnabled(prev, r) {
      assert LastIndex(prev.outputs, r) in Places(prev.outputs, r);
    }
  }

  lemma NewKeepsQuotas(chs: Store, ch: Channel, c: int, clients: map<int, ClientQuotas>, v: ClientView)
    requires ch.id !in chs && ch.clientId == Some(c) && c in clients && UniqueRefs(ch.outputs)
    requires Shows(v, clients[c], chs, c) && FitsNew(v, ch)
    ensures KeepsQuotas(chs, chs[ch.id := ch], clients)
  {
    var after := chs[ch.id := ch];
    forall d | d in clients && |EnabledOf(after, d)| > |EnabledOf(chs, d)|
      ensures |EnabledOf(after, d)| <= clients[d].enabledChannels
    {
      EnabledWith(chs, ch, d);
    }
    forall d, r | d in clients
      ensures KeepsOutputQuota(chs, after, clients[d], d, r)
    {
      OutputsWith(chs, ch, d, r);
      if d == c && Places(ch.outputs, r) != {} {
        var i := Sets.Element(Places(ch.outputs, r));
        UniquePlaces(ch.outputs, r);
        LastShown(v.outputs, clients[c].enabledOutputs, chs, c, r);
        assert Free(v, ch.outputs[i].ref);
      }
    }
  }

  /** A change of a channel that stays with its client. */
  lemma ChangeKeepsQuotas(rest: Store, prev: Channel, next: Channel, c: int, clients: map<int, ClientQuotas>,
                          v: ClientView)
    requires prev.id == next.id && prev.id !in rest
    requires prev.clientId == next.clientId == Some(c) && c in clients && UniqueRefs(next.outputs)
    requires Shows(v, clients[c], rest[prev.id := prev], c) && FitsChange(v, prev, next)
    ensures KeepsQuotas(rest[prev.id := prev], rest[next.id := next], clients)
  {
    var before, after := rest[prev.id := prev], rest[next.id := next];
    forall d | d in clients && |EnabledOf(after, d)| > |EnabledOf(before, d)|
      ensures |EnabledOf(after, d)| <= clients[d].enabledChannels
    {
      EnabledWith(rest, prev, d);
      EnabledWith(rest, next, d);
    }
    forall d, r | d in clients
      ensures KeepsOutputQuota(before, after, clients[d], d, r)
    {
      OutputsWith(rest, prev, d, r);
      OutputsWith(rest, next, d, r);
      if d == c && Places(next.outputs, r) != {} {
        var i := Sets.Element(Places(next.outputs, r));
        UniquePlaces(next.outputs, r);
        WasEnabledPlaces(prev, r);
        LastShown(v.outputs, clients[c].enabledOutputs, before, c, r);
        assert WasEnabled(prev, next.outputs[i].ref) || Free(v, next.outputs[i].ref);
      }
    }
  }

  // ---- Exactly what is refused ----

  /** Which entry of a client's output quotas counts: the last one with the ref. */
  lemma {:induction false} LastQuotaCounts(qs: seq<OutputQuota>, ref: string)
    ensures QuotaFor(qs, ref).None? <==> forall i :: 0 <= i < |qs| ==> qs[i].ref != ref
    ensures forall i :: 0 <= i < |qs| && qs[i].ref == ref && (forall k :: i < k < |qs| ==> qs[k].ref != ref) ==>
              QuotaFor(qs, ref) == Some(qs[i].quota)
    decreases |qs|
  {
    if qs != [] {
      LastQuotaCounts(qs[..|qs| - 1], ref);
    }
  }

  /** One more enabled channel would be more than the client's quota. */
  ghost predicate NoRoomForChannel(chs: Store, q: ClientQuotas, c: int) {
    |EnabledOf(chs, c)| + 1 > q.enabledChannels
  }

  /** There is a quota for the ref, and one more enabled output with it would be more. */
  ghost predicate NoRoomForOutput(chs: Store, q: ClientQuotas, c: int, ref: string) {
    QuotaFor(q.enabledOutputs, ref).Some? && |OutputsOf(chs, c, ref)| + 1 > QuotaFor(q.enabledOutputs, ref).value
  }

  /** Whether storing `ch` in place of `prev` asks its client for more than there is room for.  What the
      channel had enabled before counts only if it was the same client's. */
  ghost predicate OverQuota(chs: Store, clients: map<int, ClientQuotas>, prev: Option<Channel>, ch: Channel) {
    && ch.clientId.Some? && ch.clientId.value in clients
    && var c := ch.clientId.value;
       var stays := prev.Some? && prev.value.clientId == ch.clientId;
       || (ch.enabled && !(stays && prev.value.enabled) && NoRoomForChannel(chs, clients[c], c))
       || exists i :: 0 <= i < |ch.outputs| && ch.outputs[i].enabled
                      && !(stays && WasEnabled(prev.value, ch.outputs[i].ref))
                      && NoRoomForOutput(chs, clients[c], c, ch.outputs[i].ref)
  }

  lemma RoomShown(v: ClientView, q: ClientQuotas, chs: Store, c: int)
    requires Shows(v, q, chs, c)
    ensures ChannelFree(v) <==> !NoRoomForChannel(chs, q, c)
    ensures forall ref :: Free(v, ref) <==> !NoRoomForOutput(chs, q, c, ref)
  {
    forall ref: string
      ensures Free(v, ref) <==> !NoRoomForOutput(chs, q, c, ref)
    {
      LastShown(v.outputs, q.enabledOutputs, chs, c, ref);
    }
  }

  lemma FitsNewIff(chs: Store, clients: map<int, ClientQuotas>, prev: Option<Channel>, ch: Channel, v: ClientView)
    requires ch.clientId.Some? && ch.clientId.value in clients
    requires Shows(v, clients[ch.clientId.value], chs, ch.clientId.value)
    requires prev.Some? ==> prev.value.clientId != ch.clientId
    ensures FitsNew(v, ch) <==> !OverQuota(chs, clients, prev, ch)
  {
    RoomShown(v, clients[ch.clientId.value], chs, ch.clientId.value);
  }

  lemma FitsChangeIff(chs: Store, clients: map<int, ClientQuotas>, prev: Channel, ch: Channel, v: ClientView)
    requires ch.clientId.Some? && ch.clientId.value in clients && prev.clientId == ch.clientId
    requires Shows(v, clients[ch.clientId.value], chs, ch.clientId.value)
    ensures FitsChange(v, prev, ch) <==> !OverQuota(chs, clients, Some(prev), ch)
  {
    RoomShown(v, clients[ch.clientId.value], chs, ch.clientId.value);
  }

  /** With unique refs an output position is counted exactly when the last entry of its ref is enabled. */
  lemma UniquePlacesAre(outputs: seq<Output>, r: string)
    requires UniqueRefs(outputs)
    ensures var i := LastIndex(outputs, r);
            |Places(outputs, r)| == if i >= 0 && outputs[i].enabled then 1 else 0
  {
    var i := LastIndex(outputs, r);
    assert forall k :: k in Places(outputs, r) ==> k == i;
    if i >= 0 && outputs[i].enabled {
      assert Places(outputs, r) == {i};
    } else {
      assert Places(outputs, r) == {};
    }
  }

  function Before(rest: Store, prev: Option<Channel>): (r: Store) {
    if prev.Some? then rest[prev.value.id := prev.value] else rest
  }

  predicate Owns(client: int, ch: Option<Channel>) {
    ch.Some? && ch.value.clientId == Some(client)
  }

  lemma ChannelUsages(rest: Store, prev: Option<Channel>, ch: Channel, d: int)
    requires ch.id !in rest && (prev.Some? ==> prev.value.id == ch.id)
    ensures |EnabledOf(Before(rest, prev), d)|
            == |EnabledOf(rest, d)| + if Owns(d, prev) && prev.value.enabled then 1 else 0
    ensures |EnabledOf(rest[ch.id := ch], d)|
            == |EnabledOf(rest, d)| + if Owns(d, Some(ch)) && ch.enabled then 1 else 0
  {
    EnabledWith(rest, ch, d);
    if prev.Some? {
      EnabledWith(rest, prev.value, d);
    }
  }

  lemma OutputUsages(rest: Store, prev: Option<Channel>, ch: Channel, d: int, r: string)
    requires ch.id !in rest && (prev.Some? ==> prev.value.id == ch.id)
    requires UniqueRefs(ch.outputs) && (Owns(d, prev) && Owns(d, Some(ch)) ==> UniqueRefs(prev.value.outputs))
    ensures var before, after := |OutputsOf(Before(rest, prev), d, r)|, |OutputsOf(rest[ch.id := ch], d, r)|;
            if Owns(d, Some(ch)) && WasEnabled(ch, r) && !(Owns(d, prev) && WasEnabled(prev.value, r))
            then after == before + 1
            else after <= before
  {
    OutputsWith(rest, ch, d, r);
    UniquePlacesAre(ch.outputs, r);
    if prev.Some? {
      OutputsWith(rest, prev.value, d, r);
      if Owns(d, prev) && Owns(d, Some(ch)) {
        UniquePlacesAre(prev.value.outputs, r);
      }
    }
  }

  /** With unique refs the channel asks for room for a ref exactly when it has it enabled. */
  lemma AsksFor(outputs: seq<Output>, i: nat)
    requires UniqueRefs(outputs) && i < |outputs|
    ensures LastIndex(outputs, outputs[i].ref) == i
  {
  }

  lemma OverKeepsNot(rest: Store, prev: Option<Channel>, ch: Channel, clients: map<int, ClientQuotas>)
    requires ch.id !in rest && (prev.Some? ==> prev.value.id == ch.id)
    requires UniqueRefs(ch.outputs)
    requires prev.Some? && prev.value.clientId == ch.clientId ==> UniqueRefs(prev.value.outputs)
    requires OverQuota(Before(rest, prev), clients, prev, ch)
    ensures !KeepsQuotas(Before(rest, prev), rest[ch.id := ch], clients)
  {
    var c := ch.clientId.value;
    var before, after := Before(rest, prev), rest[ch.id := ch];
    ChannelUsages(rest, prev, ch, c);
    if ch.enabled && !(Owns(c, prev) && prev.value.enabled) && NoRoomForChannel(before, clients[c], c) {
      assert |EnabledOf(after, c)| > |EnabledOf(before, c)| && |EnabledOf(after, c)| > clients[c].enabledChannels;
    } else {
      var i :| 0 <= i < |ch.outputs| && ch.outputs[i].enabled
               && !(Owns(c, prev) && WasEnabled(prev.value, ch.outputs[i].ref))
               && NoRoomForOutput(before, clients[c], c, ch.outputs[i].ref);
      AsksFor(ch.outputs, i);
      OutputUsages(rest, prev, ch, c, ch.outputs[i].ref);
      assert !KeepsOutputQuota(before, after, clients[c], c, ch.outputs[i].ref);
    }
  }

  lemma RoomKeeps(rest: Store, prev: Option<Channel>, ch: Channel, clients: map<int, ClientQuotas>)
    requires ch.id !in rest && (prev.Some? ==> prev.value.id == ch.id)
    requires UniqueRefs(ch.outputs) && (ch.clientId.Some? ==> ch.clientId.value in clients)
    requires prev.Some? && prev.value.clientId == ch.clientId ==> UniqueRefs(prev.value.outputs)
    requires !OverQuota(Before(rest, prev), clients, prev, ch)
    ensures KeepsQuotas(Before(rest, prev), rest[ch.id := ch], clients)
  {
    var before, after := Before(rest, prev), rest[ch.id := ch];
    forall d | d in clients && |EnabledOf(after, d)| > |EnabledOf(before, d)|
      ensures |EnabledOf(after, d)| <= clients[d].enabledChannels
    {
      ChannelUsages(rest, prev, ch, d);
    }
    forall d, r | d in clients
      ensures KeepsOutputQuota(before, after, clients[d], d, r)
    {
      OutputUsages(rest, prev, ch, d, r);
      var i := LastIndex(ch.outputs, r);
      assert Owns(d, Some(ch)) && WasEnabled(ch, r) && !(Owns(d, prev) && WasEnabled(prev.value, r)) ==>
          ch.outputs[i].ref == r && !NoRoomForOutput(before, clients[d], d, ch.outputs[i].ref);
    }
  }

  /** With unique refs, now and (if the client stays) before: a call is over quota exactly when it would take
      a recounted usage that it raises above its quota. */
  lemma OverQuotaIff(rest: Store, prev: Option<Channel>, ch: Channel, clients: map<int, ClientQuotas>)
    requires ch.id !in rest && (prev.Some? ==> prev.value.id == ch.id)
    requires UniqueRefs(ch.outputs) && (ch.clientId.Some? ==> ch.clientId.value in clients)
    requires prev.Some? && prev.value.clientId == ch.clientId ==> UniqueRefs(prev.value.outputs)
    ensures OverQuota(Before(rest, prev), clients, prev, ch)
            <==> !KeepsQuotas(Before(rest, prev), rest[ch.id := ch], clients)
  {
    if OverQuota(Before(rest, prev), clients, prev, ch) {
      OverKeepsNot(rest, prev, ch, clients);
    } else {
      RoomKeeps(rest, prev, ch, clients);
    }
  }

  /** Taking a channel away, or handing it to nobody, raises nothing. */
  lemma ReleasedKeepsQuotas(rest: Store, prev: Channel, next: Channel, clients: map<int, ClientQuotas>)
    requires prev.id == next.id && prev.id !in rest && next.clientId.None?
    ensures KeepsQuotas(rest[prev.id := prev], rest[next.id := next], clients)
  {
    var before, after := rest[prev.id := prev], rest[next.id := next];
    forall d: int
      ensures |EnabledOf(after, d)| <= |EnabledOf(before, d)|
    {
      EnabledWith(rest, prev, d);
      EnabledWith(rest, next, d);
    }
    forall d: int, r: string
      ensures |OutputsOf(after, d, r)| <= |OutputsOf(before, d, r)|
    {
      OutputsWith(rest, prev, d, r);
      OutputsWith(rest, next, d, r);
    }
  }

  /** A channel that moves to another client is checked like a new one; the client it leaves only loses. */
  lemma MoveKeepsQuotas(rest: Store, prev: Channel, next: Channel, c: int, clients: map<int, ClientQuotas>,
                        v: ClientView)
    requires prev.id == next.id && prev.id !in rest
    requires prev.clientId != next.clientId == Some(c) && c in clients && UniqueRefs(next.outputs)
    requires Shows(v, clients[c], rest[prev.id := prev], c) && FitsNew(v, next)
    ensures KeepsQuotas(rest[prev.id := prev], rest[next.id := next], clients)
  {
    var before, after := rest[prev.id := prev], rest[next.id := next];
    forall d | d in clients && |EnabledOf(after, d)| > |EnabledOf(before, d)|
      ensures |EnabledOf(after, d)| <= clients[d].enabledChannels
    {
      EnabledWith(rest, prev, d);
      EnabledWith(rest, next, d);
    }
    forall d, r | d in clients
      ensures KeepsOutputQuota(before, after, clients[d], d, r)
    {
      OutputsWith(rest, prev, d, r);
      OutputsWith(rest, next, d, r);
      if d == c && Places(next.outputs, r) != {} {
        var i := Sets.Element(Places(next.outputs, r));
        UniquePlaces(next.outputs, r);
        LastShown(v.outputs, clients[c].enabledOutputs, before, c, r);
        assert Free(v, next.outputs[i].ref);
      }
    }
  }

  /** Deleting a channel raises nothing. */
  lemma DeleteKeepsQuotas(rest: Store, prev: Channel, clients: map<int, ClientQuotas>)
    requires prev.id !in rest
    ensures KeepsQuotas(rest[prev.id := prev], rest, clients)
  {
    forall d: int
      ensures |EnabledOf(rest, d)| <= |EnabledOf(rest[prev.id := prev], d)|
    {
      EnabledWith(rest, prev, d);
    }
    forall d: int, r: string
      ensures |OutputsOf(rest, d, r)| <= |OutputsOf(rest[prev.id := prev], d, r)|
    {
      OutputsWith(rest, prev, d, r);
    }
  }

  /** A usage that its quota allows; nothing in use is always allowed. */
  predicate Allowed(usage: int, quota: int) {
    usage <= quota || usage == 0
  }

  ghost predicate ClientWithin(chs: Store, q: ClientQuotas, c: int) {
    && Allowed(|EnabledOf(chs, c)|, q.enabledChannels)
    && (forall r: string :: QuotaFor(q.enabledOutputs, r).Some? ==>
        Allowed(|OutputsOf(chs, c, r)|, QuotaFor(q.enabledOutputs, r).value))
  }

  /** Every client's recounted usage is within its quotas. */
  ghost predicate WithinQuotas(chs: Store, clients: map<int, ClientQuotas>) {
    forall c :: c in clients ==> ClientWithin(chs, clients[c], c)
  }

  lemma KeptWithin(before: Store, after: Store, clients: map<int, ClientQuotas>)
    requires KeepsQuotas(before, after, clients) && WithinQuotas(before, clients)
    ensures WithinQuotas(after, clients)
  {
    forall c | c in clients
      ensures ClientWithin(after, clients[c], c)
    {
      assert ClientWithin(before, clients[c], c);
      forall r: string | QuotaFor(clients[c].enabledOutputs, r).Some?
        ensures Allowed(|OutputsOf(after, c, r)|, QuotaFor(clients[c].enabledOutputs, r).value)
      {
        assert KeepsOutputQuota(before, after, clients[c], c, r);
      }
    }
  }

  /** A client that owns nothing is within any quotas. */
  lemma NewcomerWithin(l: Ledger, chs: Store, clients: map<int, ClientQuotas>, c: int, q: ClientQuotas)
    requires UnitsRight(l, chs) && c !in l.units && WithinQuotas(chs, clients)
    ensures WithinQuotas(chs, clients[c := q])
  {
    NothingOwned(l, chs, c);
    assert EnabledOf(chs, c) <= Owned(chs, c);
    assert ClientWithin(chs, q, c);
  }

  /** Without unique refs the check can be passed and the quota overrun: each output is compared with
      the usage before the call, never with the others of the same channel. */
  lemma RepeatedRefsOverrun(url: string)
    ensures exists ch: Channel, clients: map<int, ClientQuotas>, v: ClientView ::
      ch.clientId == Some(1) && 1 in clients && !UniqueRefs(ch.outputs)
      && Shows(v, clients[1], map[], 1) && FitsNew(v, ch) && !KeepsQuotas(map[], map[ch.id := ch], clients)
  {
    var out := Output("a", Some(url), None, 0, [], true);
    var ch := Channel(1, Some(1), [out, out], false);
    var clients := map[1 := ClientQuotas(0, [OutputQuota("a", 1)], 0, 0)];
    var none: Store := map[];
    var v := ClientView(1, 0, 0, [OutputUsage("a", 1, 0)], OnlineUsage(0, 0, 0), []);
    assert EnabledOf(none, 1) == {} && Owned(none, 1) == {} && OutputsOf(none, 1, "a") == {};
    assert Shows(v, clients[1], none, 1);
    assert QuotaFor(clients[1].enabledOutputs, "a") == Some(1);
    assert Places(ch.outputs, "a") == {0, 1};
    OutputsWith(none, ch, 1, "a");
    assert none[ch.id := ch] == map[ch.id := ch];
    assert !KeepsOutputQuota(none, map[ch.id := ch], clients[1], 1, "a");
    assert ch.outputs[0].ref == ch.outputs[1].ref;
  }
}

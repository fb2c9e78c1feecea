/** The by-ref form of an outputs patch (internal/http/dto/channel_modify.go).  Go ranges over the patch
    in an unspecified order; the result is shown not to depend on it. */
module OutputsPatch {
  import opened Wrappers
  import opened Channels

  /** A patch field: left out, null, or a value. */
  datatype Field<+T> = Omitted | Null | Value(v: T)

  datatype OutputModify = OutputModify(
    ref: Field<string>,
    url: Field<string>,
    localaddr: Field<string>,
    pktSize: Field<nat>,
    streamMapping: Field<seq<string>>,
    enabled: Field<bool>)

  datatype Error =
    | NoSuchRef | NullOutput | RefUnauthorized
    | FieldUnauthorized(field: string) | NullField(field: string)

  datatype Result<+T> = Ok(value: T) | Err(error: Error)

  /** The refs that a client may patch. */
  predicate ClientRef(ref: string) {
    ref == "onprem_mr01" || ref == "onprem_mz01" || ref == "pubcloud_sky320"
  }

  function Nullable(f: Field<string>, was: Option<string>): (r: Option<string>) {
    match f
    case Omitted => was
    case Null => None
    case Value(v) => Some(v)
  }

  function Plain<T>(f: Field<T>, was: T): (r: T) {
    if f.Value? then f.v else was
  }

  /** ChannelOutputModify.MergePatch: the checks in source order, then the patched output. */
  function PatchOutput(m: OutputModify, o: Output, admin: bool): (r: Result<Output>) {
    if !m.ref.Omitted? && !admin then Err(FieldUnauthorized("ref"))
    else if m.ref.Null? then Err(NullField("ref"))
    else if !m.url.Omitted? && !admin then Err(FieldUnauthorized("url"))
    else if !m.localaddr.Omitted? && !admin then Err(FieldUnauthorized("localaddr"))
    else if !m.pktSize.Omitted? && !admin then Err(FieldUnauthorized("pkt_size"))
    else if m.pktSize.Null? then Err(NullField("pkt_size"))
    else if !m.streamMapping.Omitted? && !admin then Err(FieldUnauthorized("stream_mapping"))
    else if m.streamMapping.Null? then Err(NullField("stream_mapping"))
    else if m.enabled.Null? then Err(NullField("enabled"))
    else Ok(Output(Plain(m.ref, o.ref), Nullable(m.url, o.url), Nullable(m.localaddr, o.localaddr),
                   Plain(m.pktSize, o.pktSize), Plain(m.streamMapping, o.streamMapping), Plain(m.enabled, o.enabled)))
  }

  /** A null entry is `None`. */
  type Patch = map<string, Option<OutputModify>>

  /** What one entry of the patch does to the outputs, given the positions fixed before the loop. */
  function MergeOne(outputs: seq<Output>, entries: map<string, OutputEntry>, patch: Patch, ref: string,
                    admin: bool): (r: Result<seq<Output>>)
    requires ref in patch
    requires forall k :: k in entries ==> entries[k].index < |outputs|
  {
    if ref !in entries then Err(NoSuchRef)
    else if patch[ref].None? then Err(NullOutput)
    else if !admin && !ClientRef(ref) then Err(RefUnauthorized)
    else
      var i := entries[ref].index;
      match PatchOutput(patch[ref].value, outputs[i], admin)
      case Err(e) => Err(e)
      case Ok(o) => Ok(outputs[i := o])
  }

  // ---- The result, without any order ----

  predicate EntryAccepted(outputs: seq<Output>, patch: Patch, ref: string, admin: bool)
    requires ref in patch
  {
    && LastIndex(outputs, ref) >= 0
    && patch[ref].Some?
    && (admin || ClientRef(ref))
    && PatchOutput(patch[ref].value, outputs[LastIndex(outputs, ref)], admin).Ok?
  }

  ghost predicate Accepted(outputs: seq<Output>, patch: Patch, admin: bool) {
    forall ref :: ref in patch ==> EntryAccepted(outputs, patch, ref, admin)
  }

  /** Output `k` after those entries of the patch that are in `done`: only the last output of a ref is
      patched, and it is patched from what it was. */
  ghost function PatchedAt(outputs: seq<Output>, patch: Patch, done: seq<string>, admin: bool, k: nat): (r: Output)
    requires k < |outputs|
    requires forall ref :: ref in done ==> ref in patch && EntryAccepted(outputs, patch, ref, admin)
  {
    var ref := outputs[k].ref;
    if ref in done && LastIndex(outputs, ref) == k then
      assert EntryAccepted(outputs, patch, ref, admin);
      PatchOutput(patch[ref].value, outputs[k], admin).value
    else outputs[k]
  }

  /** Output `k` after an accepted patch. */
  ghost function PatchedOutput(outputs: seq<Output>, patch: Patch, admin: bool, k: nat): (r: Output)
    requires Accepted(outputs, patch, admin) && k < |outputs|
  {
    var ref := outputs[k].ref;
    if ref in patch && LastIndex(outputs, ref) == k then
      assert EntryAccepted(outputs, patch, ref, admin);
      PatchOutput(patch[ref].value, outputs[k], admin).value
    else outputs[k]
  }

  /** The outputs after an accepted patch; no order of iteration is mentioned. */
  ghost function Patched(outputs: seq<Output>, patch: Patch, admin: bool): (r: seq<Output>)
    requires Accepted(outputs, patch, admin)
  {
    seq(|outputs|, k requires 0 <= k < |outputs| => PatchedOutput(outputs, patch, admin, k))
  }

  /** The iteration order: every key of the patch once. */
  ghost predicate Orders(order: seq<string>, patch: Patch) {
    && (forall ref :: ref in order <==> ref in patch)
    && (forall i, j :: 0 <= i < j < |order| ==> order[i] != order[j])
  }

  /** ChannelModify.MergePatch, by-ref outputs, ranging over the patch in the given order.  The result
      is the same for every order, and so is whether there is one. */
  method MergeOutputs(prev: seq<Output>, patch: Patch, order: seq<string>, admin: bool) returns (r: Result<seq<Output>>)
    requires Orders(order, patch)
    ensures r.Ok? <==> Accepted(prev, patch, admin)
    ensures r.Ok? ==> r.value == Patched(prev, patch, admin)
    ensures r.Err? ==> exists ref :: ref in patch && Deserves(prev, ref, patch[ref], admin, r.error)
  {
    var entries := OutputsByRef(prev);
    var outputs := prev;
    var i := 0;
    while i < |order|
      invariant 0 <= i <= |order| && |outputs| == |prev|
      invariant forall ref :: ref in order[..i] ==> ref in patch && EntryAccepted(prev, patch, ref, admin)
      invariant forall k :: 0 <= k < |prev| ==> outputs[k] == PatchedAt(prev, patch, order[..i], admin, k)
    {
      var ref := order[i];
      Fresh(order, i);
      assert ref in patch && ref !in order[..i];
      var step := MergeOne(outputs, entries, patch, ref, admin);
      Untouched(prev, outputs, patch, order[..i], entries, ref, admin);
      if step.Err? {
        assert Deserves(prev, ref, patch[ref], admin, step.error);
        return Err(step.error);
      }
      Advance(prev, outputs, step.value, patch, order, i, admin);
      outputs := step.value;
      i := i + 1;
    }
    AllPatched(prev, outputs, patch, order, admin);
    return Ok(outputs);
  }

  lemma AllPatched(prev: seq<Output>, outputs: seq<Output>, patch: Patch, order: seq<string>, admin: bool)
    requires Orders(order, patch) && |outputs| == |prev|
    requires forall ref :: ref in order[..|order|] ==> ref in patch && EntryAccepted(prev, patch, ref, admin)
    requires forall k :: 0 <= k < |prev| ==> outputs[k] == PatchedAt(prev, patch, order[..|order|], admin, k)
    ensures Accepted(prev, patch, admin) && outputs == Patched(prev, patch, admin)
  {
    assert order[..|order|] == order;
    assert forall ref :: ref in patch ==> ref in order;
  }

  lemma Fresh(order: seq<string>, i: nat)
    requires i < |order| && forall a, b :: 0 <= a < b < |order| ==> order[a] != order[b]
    ensures order[i] !in order[..i] && order[..i + 1] == order[..i] + [order[i]]
  {
  }

  /** Entries merged before leave the output of another ref alone, even when they rename outputs. */
  lemma Untouched(prev: seq<Output>, outputs: seq<Output>, patch: Patch, done: seq<string>,
                  entries: map<string, OutputEntry>, ref: string, admin: bool)
    requires |outputs| == |prev| && ByRef(prev, entries) && ref in patch && ref !in done
    requires forall x :: x in done ==> x in patch && EntryAccepted(prev, patch, x, admin)
    requires forall k :: 0 <= k < |prev| ==> outputs[k] == PatchedAt(prev, patch, done, admin, k)
    ensures ref in entries ==> outputs[entries[ref].index] == prev[LastIndex(prev, ref)]
    ensures MergeOne(outputs, entries, patch, ref, admin).Ok? <==> EntryAccepted(prev, patch, ref, admin)
    ensures EntryAccepted(prev, patch, ref, admin) ==>
              MergeOne(outputs, entries, patch, ref, admin).value
              == outputs[LastIndex(prev, ref) := PatchOutput(patch[ref].value, prev[LastIndex(prev, ref)], admin).value]
  {
  }

  lemma Advance(prev: seq<Output>, outputs: seq<Output>, outputs': seq<Output>, patch: Patch, order: seq<string>,
                i: nat, admin: bool)
    requires i < |order| && |outputs| == |prev|
    requires order[i] !in order[..i] && order[..i + 1] == order[..i] + [order[i]]
    requires order[i] in patch && EntryAccepted(prev, patch, order[i], admin)
    requires forall x :: x in order[..i + 1] ==> x in patch && EntryAccepted(prev, patch, x, admin)
    requires forall k :: 0 <= k < |prev| ==> outputs[k] == PatchedAt(prev, patch, order[..i], admin, k)
    requires var l := LastIndex(prev, order[i]);
             outputs' == outputs[l := PatchOutput(patch[order[i]].value, prev[l], admin).value]
    ensures forall k :: 0 <= k < |prev| ==> outputs'[k] == PatchedAt(prev, patch, order[..i + 1], admin, k)
  {
  }

  // ---- What is accepted and what comes of it, field by field ----

  /** A field that may be null: as it was when left out, nothing when null. */
  predicate NullableSet(f: Field<string>, was: Option<string>, now: Option<string>) {
    && (f.Omitted? ==> now == was)
    && (f.Null? ==> now == None)
    && (f.Value? ==> now == Some(f.v))
  }

  /** A field that may not be null. */
  predicate PlainSet<T(==)>(f: Field<T>, was: T, now: T) {
    && (f.Omitted? ==> now == was)
    && (f.Value? ==> now == f.v)
  }

  /** After an accepted patch the last output with a patched ref has every field the patch gives, and the
      others as they were; every other output is as it was. */
  lemma PatchedFields(prev: seq<Output>, patch: Patch, admin: bool, k: nat)
    requires Accepted(prev, patch, admin) && k < |prev|
    ensures |Patched(prev, patch, admin)| == |prev|
    ensures var was, now := prev[k], Patched(prev, patch, admin)[k];
            if was.ref in patch && (forall j :: k < j < |prev| ==> prev[j].ref != was.ref) then
              && patch[was.ref].Some?
              && var m := patch[was.ref].value;
                 && PlainSet(m.ref, was.ref, now.ref)
                 && NullableSet(m.url, was.url, now.url) && NullableSet(m.localaddr, was.localaddr, now.localaddr)
                 && PlainSet(m.pktSize, was.pktSize, now.pktSize)
                 && PlainSet(m.streamMapping, was.streamMapping, now.streamMapping)
                 && PlainSet(m.enabled, was.enabled, now.enabled)
            else now == was
  {
    var ref := prev[k].ref;
    if ref in patch {
      assert EntryAccepted(prev, patch, ref, admin);
    }
    assert LastIndex(prev, ref) == k <==> forall j :: k < j < |prev| ==> prev[j].ref != ref;
  }

  /** What one entry must be: for a ref that is there, not null, with no null in a field that may not be, and
      from a client only the enabled flag, on one of three refs. */
  predicate Acceptable(ref: string, entry: Option<OutputModify>, admin: bool) {
    && entry.Some?
    && var m := entry.value;
       && !m.ref.Null? && !m.pktSize.Null? && !m.streamMapping.Null? && !m.enabled.Null?
       && (!admin ==>
             && (ref == "onprem_mr01" || ref == "onprem_mz01" || ref == "pubcloud_sky320")
             && m.ref.Omitted? && m.url.Omitted? && m.localaddr.Omitted? && m.pktSize.Omitted?
             && m.streamMapping.Omitted?)
  }

  /** A patch is accepted exactly when each of its entries is for a ref that is there and is acceptable. */
  lemma AcceptedIff(prev: seq<Output>, patch: Patch, admin: bool)
    ensures Accepted(prev, patch, admin) <==>
            forall ref :: ref in patch ==> (exists k :: 0 <= k < |prev| && prev[k].ref == ref)
                                           && Acceptable(ref, patch[ref], admin)
  {
    forall ref | ref in patch
      ensures EntryAccepted(prev, patch, ref, admin) <==>
              (exists k :: 0 <= k < |prev| && prev[k].ref == ref) && Acceptable(ref, patch[ref], admin)
    {
      var i := LastIndex(prev, ref);
      assert i >= 0 <==> exists k :: 0 <= k < |prev| && prev[k].ref == ref;
    }
  }

  /** An error that an entry of the patch deserves. */
  predicate Deserves(prev: seq<Output>, ref: string, entry: Option<OutputModify>, admin: bool, e: Error) {
    match e
    case NoSuchRef => LastIndex(prev, ref) == -1
    case NullOutput => entry.None?
    case RefUnauthorized => !admin && ref != "onprem_mr01" && ref != "onprem_mz01" && ref != "pubcloud_sky320"
    case FieldUnauthorized(f) =>
      && !admin && entry.Some?
      && var m := entry.value;
         || (f == "ref" && !m.ref.Omitted?) || (f == "url" && !m.url.Omitted?)
         || (f == "localaddr" && !m.localaddr.Omitted?) || (f == "pkt_size" && !m.pktSize.Omitted?)
         || (f == "stream_mapping" && !m.streamMapping.Omitted?)
    case NullField(f) =>
      && entry.Some?
      && var m := entry.value;
         || (f == "ref" && m.ref.Null?) || (f == "pkt_size" && m.pktSize.Null?)
         || (f == "stream_mapping" && m.streamMapping.Null?) || (f == "enabled" && m.enabled.Null?)
  }

  /** A client's accepted patch changes nothing but the enabled flag of the outputs it may touch. */
  lemma ClientChangesEnabledOnly(prev: seq<Output>, patch: Patch, k: nat)
    requires Accepted(prev, patch, false) && k < |prev|
    ensures Patched(prev, patch, false)[k] == prev[k].(enabled := Patched(prev, patch, false)[k].enabled)
    ensures Patched(prev, patch, false)[k] != prev[k] ==> ClientRef(prev[k].ref)
  {
    assert prev[k].ref in patch ==> EntryAccepted(prev, patch, prev[k].ref, false);
  }
}

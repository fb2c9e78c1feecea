/** The channel record and its outputs (internal/domain/channel/model.go), as far as the services and
    the patch need them. */
module Channels {
  import opened Wrappers

  datatype Output = Output(
    ref: string,
    url: Option<string>,
    localaddr: Option<string>,
    pktSize: nat,
    streamMapping: seq<string>,
    enabled: bool)

  datatype Channel = Channel(id: int, clientId: Option<int>, outputs: seq<Output>, enabled: bool)

  datatype OutputEntry = OutputEntry(index: nat, output: Output)

  /** Position of the last output with this ref, or -1. */
  function LastIndex(outputs: seq<Output>, ref: string): (r: int)
    ensures -1 <= r < |outputs|
    ensures r >= 0 ==> outputs[r].ref == ref
    ensures forall k :: r < k < |outputs| ==> outputs[k].ref != ref
  {
    if outputs == [] then -1
    else if outputs[|outputs| - 1].ref == ref then |outputs| - 1
    else LastIndex(outputs[..|outputs| - 1], ref)
  }

  /** The by-ref table: for a ref used twice the later output wins. */
  ghost predicate ByRef(outputs: seq<Output>, m: map<string, OutputEntry>) {
    && (forall ref :: ref in m <==> LastIndex(outputs, ref) >= 0)
    && (forall ref :: ref in m ==> m[ref].index == LastIndex(outputs, ref) && m[ref].output == outputs[m[ref].index])
  }

  method OutputsByRef(outputs: seq<Output>) returns (m: map<string, OutputEntry>)
    ensures ByRef(outputs, m)
  {
    m := map[];
    var i := 0;
    while i < |outputs|
      invariant 0 <= i <= |outputs| && ByRef(outputs[..i], m)
    {
      assert outputs[..i + 1][..i] == outputs[..i];
      m := m[outputs[i].ref := OutputEntry(i, outputs[i])];
      i := i + 1;
    }
    assert outputs[..i] == outputs;
  }

  ghost predicate UniqueRefs(outputs: seq<Output>) {
    forall i, j :: 0 <= i < j < |outputs| ==> outputs[i].ref != outputs[j].ref
  }

  /** The uniqueness check of Validate; on failure the later position and the earlier one. */
  method FindRepeatedRef(outputs: seq<Output>) returns (r: Option<(int, int)>)
    ensures r.None? <==> UniqueRefs(outputs)
    ensures r.Some? ==> 0 <= r.value.1 < r.value.0 < |outputs| && outputs[r.value.0].ref == outputs[r.value.1].ref
    ensures r.Some? ==> UniqueRefs(outputs[..r.value.0])
  {
    var seen: map<string, int> := map[];
    var i := 0;
    while i < |outputs|
      invariant 0 <= i <= |outputs| && UniqueRefs(outputs[..i])
      invariant forall ref :: ref in seen ==> 0 <= seen[ref] < i && outputs[seen[ref]].ref == ref
      invariant forall k :: 0 <= k < i ==> outputs[k].ref in seen
    {
      if outputs[i].ref in seen {
        return Some((i, seen[outputs[i].ref]));
      }
      seen := seen[outputs[i].ref := i];
      i := i + 1;
    }
    assert outputs[..i] == outputs;
    return None;
  }
}

/**
 A batch of channel edits, written in place over an index of the slots and then
 normalised in place, data object by data object.
 */
module BatchEdits {
  import opened Results
  import opened CodeplugHeap

  // ---- what a batch means

  /** The last channel of that slot, or -1. */
  function LastIndex(chs: seq<Channel>, slot: Slot): (i: int)
    ensures -1 <= i < |chs|
    ensures i >= 0 ==> chs[i].slot == slot
    ensures forall k | i < k < |chs| :: chs[k].slot != slot
  {
    if chs == [] then -1
    else if chs[|chs| - 1].slot == slot then |chs| - 1
    else LastIndex(chs[..|chs| - 1], slot)
  }

  predicate AllKnown(chs: seq<Channel>, edits: seq<Channel>) {
    forall k | 0 <= k < |edits| :: LastIndex(chs, edits[k].slot) >= 0
  }

  function Placed(chs: seq<Channel>, edits: seq<Channel>): (r: seq<Channel>)
    requires AllKnown(chs, edits)
    ensures |r| == |chs|
    ensures forall i | 0 <= i < |chs| :: r[i].slot == chs[i].slot
    decreases |edits|
  {
    if edits == [] then chs
    else
      var last := edits[|edits| - 1];
      Placed(chs, edits[..|edits| - 1])[LastIndex(chs, last.slot) := last]
  }

  /** After a batch, a slot holds its last edit, and what no edit resolves to is as it was. */
  lemma {:induction false} PlacedAt(chs: seq<Channel>, edits: seq<Channel>, i: nat)
    requires AllKnown(chs, edits) && i < |chs|
    ensures Placed(chs, edits)[i] ==
            if LastIndex(chs, chs[i].slot) == i && LastIndex(edits, chs[i].slot) >= 0
            then edits[LastIndex(edits, chs[i].slot)] else chs[i]
    decreases |edits|
  {
    if edits != [] {
      PlacedAt(chs, edits[..|edits| - 1], i);
    }
  }

  /** No data object comes from anywhere else. */
  lemma PlacedObjects(chs: seq<Channel>, edits: seq<Channel>)
    requires AllKnown(chs, edits)
    ensures DataObjects(Placed(chs, edits)) <= DataObjects(chs) + DataObjects(edits)
  {
    forall i | 0 <= i < |chs|
      ensures Placed(chs, edits)[i] in chs || Placed(chs, edits)[i] in edits
    {
      PlacedAt(chs, edits, i);
    }
    ObjectsOfElements(Placed(chs, edits), chs, edits);
  }

  lemma ObjectsOfElements(r: seq<Channel>, chs: seq<Channel>, edits: seq<Channel>)
    requires forall i | 0 <= i < |r| :: r[i] in chs || r[i] in edits
    ensures DataObjects(r) <= DataObjects(chs) + DataObjects(edits)
  {
  }

  // ---- what a pass over the data means

  /** What one pass does to a channel's fields, given its slot. */
  type Normaliser = (Slot, Fields) -> Fields

  /** The fields of `d` after a pass over `chs`: one application for each channel that refers to it. */
  function Passed(chs: seq<Channel>, norm: Normaliser, d: ChannelData, f: Fields): Fields {
    if chs == [] then f
    else
      var last := chs[|chs| - 1];
      var g := Passed(chs[..|chs| - 1], norm, d, f);
      if last.data == d then norm(last.slot, g) else g
  }

  function PassedValue(chs: seq<Channel>, norm: Normaliser, c: Channel, v: ChannelContents): ChannelContents {
    (v.0, if c.data == null || v.1.None? then v.1 else Some(Passed(chs, norm, c.data, v.1.value)))
  }

  function Normalised(chs: seq<Channel>, values: seq<ChannelContents>, norm: Normaliser): (r: seq<ChannelContents>)
    requires |chs| == |values|
    ensures |r| == |chs|
    ensures forall i | 0 <= i < |chs| :: r[i] == PassedValue(chs, norm, chs[i], values[i])
  {
    seq(|chs|, i requires 0 <= i < |chs| => PassedValue(chs, norm, chs[i], values[i]))
  }

  /** A data object that one channel refers to is normalised once, for that channel's slot. */
  lemma {:induction false} PassedOnce(chs: seq<Channel>, norm: Normaliser, i: nat, f: Fields)
    requires OwnData(chs) && i < |chs| && chs[i].data != null
    ensures Passed(chs, norm, chs[i].data, f) == norm(chs[i].slot, f)
  {
    var n := |chs| - 1;
    if i < n {
      PassedOnce(chs[..n], norm, i, f);
    } else {
      NeverPassed(chs[..n], norm, chs[n].data, f);
    }
  }

  lemma {:induction false} NeverPassed(chs: seq<Channel>, norm: Normaliser, d: ChannelData, f: Fields)
    requires forall k | 0 <= k < |chs| :: chs[k].data != d
    ensures Passed(chs, norm, d, f) == f
  {
    if chs != [] {
      NeverPassed(chs[..|chs| - 1], norm, d, f);
    }
  }

  // ---- the loops

  ghost predicate Indexes(index: map<Slot, nat>, chs: seq<Channel>) {
    && (forall s | s in index :: index[s] == LastIndex(chs, s))
    && (forall s | s !in index :: LastIndex(chs, s) == -1)
  }

  method BuildIndex(channels: array<Channel>) returns (index: map<Slot, nat>)
    ensures Indexes(index, channels[..])
  {
    index := map[];
    var i := 0;
    while i < channels.Length
      invariant 0 <= i <= channels.Length
      invariant Indexes(index, channels[..i])
    {
      assert channels[..i + 1][..i] == channels[..i];
      index := index[channels[i].slot := i];
      i := i + 1;
    }
    assert channels[..i] == channels[..];
  }

  /** Whether every edit's slot is in the index. */
  method KnownSlots(edits: seq<Channel>, index: map<Slot, nat>, ghost chs: seq<Channel>) returns (known: bool)
    requires Indexes(index, chs)
    ensures known == AllKnown(chs, edits)
  {
    var k := 0;
    while k < |edits|
      invariant 0 <= k <= |edits|
      invariant forall j | 0 <= j < k :: edits[j].slot in index
    {
      if edits[k].slot !in index {
        return false;
      }
      k := k + 1;
    }
    return true;
  }

  lemma OneMorePlaced(chs: seq<Channel>, edits: seq<Channel>, k: nat)
    requires AllKnown(chs, edits) && k < |edits|
    ensures AllKnown(chs, edits[..k]) && AllKnown(chs, edits[..k + 1])
    ensures Placed(chs, edits[..k + 1]) == Placed(chs, edits[..k])[LastIndex(chs, edits[k].slot) := edits[k]]
  {
    assert edits[..k + 1][..k] == edits[..k];
  }

  method PlaceEdits(channels: array<Channel>, edits: seq<Channel>, index: map<Slot, nat>)
    requires Indexes(index, channels[..]) && AllKnown(channels[..], edits)
    modifies channels
    ensures channels[..] == Placed(old(channels[..]), edits)
  {
    ghost var chs := channels[..];
    var k := 0;
    while k < |edits|
      invariant 0 <= k <= |edits|
      invariant AllKnown(chs, edits[..k]) && channels[..] == Placed(chs, edits[..k])
    {
      OneMorePlaced(chs, edits, k);
      assert edits[k].slot in index;
      channels[index[edits[k].slot]] := edits[k];
      k := k + 1;
    }
    assert edits[..k] == edits;
  }

  method NormaliseTierFields(channels: array<Channel>, norm: Normaliser)
    modifies DataObjects(channels[..])
    ensures channels[..] == old(channels[..])
    ensures ChannelValues(channels[..]) == Normalised(channels[..], old(ChannelValues(channels[..])), norm)
  {
    var i := 0;
    while i < channels.Length
      invariant 0 <= i <= channels.Length
      invariant forall k | 0 <= k < channels.Length && channels[k].data != null ::
                  channels[k].data.fields == Passed(channels[..i], norm, channels[k].data, old(channels[k].data.fields))
    {
      assert channels[..i + 1][..i] == channels[..i];
      var d := channels[i].data;
      if d != null {
        assert d in DataObjects(channels[..]);
        d.fields := norm(channels[i].slot, d.fields);
      }
      i := i + 1;
    }
    assert channels[..i] == channels[..];
  }

  method PlaceNormalised(channels: array<Channel>, edits: seq<Channel>, index: map<Slot, nat>, norm: Normaliser)
    requires Indexes(index, channels[..]) && AllKnown(channels[..], edits)
    modifies channels, DataObjects(channels[..]), DataObjects(edits)
    ensures channels[..] == Placed(old(channels[..]), edits)
    ensures ChannelValues(channels[..]) ==
            Normalised(channels[..], old(ChannelValues(Placed(channels[..], edits))), norm)
  {
    ghost var target := Placed(channels[..], edits);
    PlacedObjects(channels[..], edits);
    PlaceEdits(channels, edits, index);
    ValuesKept(target);
    NormaliseTierFields(channels, norm);
  }

  /** All of the batch in place or, when a slot is unknown, none of it. */
  method ApplyEdits(channels: array<Channel>, edits: seq<Channel>, norm: Normaliser) returns (applied: bool)
    modifies channels, DataObjects(channels[..]), DataObjects(edits)
    ensures applied == AllKnown(old(channels[..]), edits)
    ensures channels[..] == if applied then Placed(old(channels[..]), edits) else old(channels[..])
    ensures ChannelValues(channels[..]) ==
            if applied then Normalised(channels[..], old(ChannelValues(Placed(channels[..], edits))), norm)
            else old(ChannelValues(channels[..]))
  {
    var index := BuildIndex(channels);
    applied := KnownSlots(edits, index, channels[..]);
    if applied {
      ValuesKept(Placed(channels[..], edits));
      PlaceNormalised(channels, edits, index, norm);
    } else {
      ValuesKept(channels[..]);
    }
  }
}

/**
 Imported channels merged into a codeplug: a CSV replaces the whole slice and must
 have the same slots, a CHIRP file is sparse and writes the slots it names.  A
 refused merge touches nothing.
 */
module Merges {
  import opened CodeplugHeap
  import opened BatchEdits

  /** The slots an error names; the text, with its order and repeats, is not modelled. */
  datatype Verdict =
    | Merged
    | InventoryMismatch(missing: set<Slot>, extra: set<Slot>)
    | UnknownSlots(slots: set<Slot>)
    | DuplicateSlots(slots: set<Slot>)

  function Slots(chs: seq<Channel>): set<Slot> {
    set i | 0 <= i < |chs| :: chs[i].slot
  }

  function Occurrences(chs: seq<Channel>, slot: Slot): nat {
    if chs == [] then 0
    else Occurrences(chs[..|chs| - 1], slot) + if chs[|chs| - 1].slot == slot then 1 else 0
  }

  function Repeated(chs: seq<Channel>): set<Slot> {
    set s | s in Slots(chs) && Occurrences(chs, s) >= 2
  }

  function CsvVerdict(base: set<Slot>, imported: set<Slot>): Verdict {
    if base == imported then Merged else InventoryMismatch(base - imported, imported - base)
  }

  function ChirpVerdict(base: seq<Channel>, imported: seq<Channel>): Verdict {
    if Slots(imported) <= Slots(base) then
      if Repeated(imported) == {} then Merged else DuplicateSlots(Repeated(imported))
    else UnknownSlots(Slots(imported) - Slots(base))
  }

  // ---- the two merges

  lemma SlotsSnoc(chs: seq<Channel>, i: nat)
    requires i < |chs|
    ensures Slots(chs[..i + 1]) == Slots(chs[..i]) + {chs[i].slot}
  {
    assert forall k | 0 <= k < i :: chs[..i + 1][k] == chs[..i][k];
    assert chs[..i + 1][i] == chs[i];
  }

  method ChannelSlotSet(channels: array<Channel>) returns (s: set<Slot>)
    ensures s == Slots(channels[..])
  {
    s := {};
    var i := 0;
    while i < channels.Length
      invariant 0 <= i <= channels.Length && s == Slots(channels[..i])
    {
      SlotsSnoc(channels[..], i);
      assert channels[..][..i] == channels[..i] && channels[..][..i + 1] == channels[..i + 1];
      s := s + {channels[i].slot};
      i := i + 1;
    }
    assert channels[..i] == channels[..];
  }

  lemma SameSlots(a: set<Slot>, b: set<Slot>)
    requires |a - b| == 0 && |b - a| == 0
    ensures a == b
  {
    forall s
      ensures s in a <==> s in b
    {
      assert s !in a - b && s !in b - a;
    }
  }

  method JudgeCsv(base: array<Channel>, imported: array<Channel>) returns (v: Verdict)
    ensures v == CsvVerdict(Slots(base[..]), Slots(imported[..]))
  {
    var baseSlots := ChannelSlotSet(base);
    var importedSlots := ChannelSlotSet(imported);
    var missing, extra := baseSlots - importedSlots, importedSlots - baseSlots;
    if |missing| > 0 || |extra| > 0 {
      return InventoryMismatch(missing, extra);
    }
    SameSlots(baseSlots, importedSlots);
    return Merged;
  }

  lemma KnownExactly(chs: seq<Channel>, edits: seq<Channel>)
    ensures AllKnown(chs, edits) <==> Slots(edits) <= Slots(chs)
  {
    forall k | 0 <= k < |edits|
      ensures LastIndex(chs, edits[k].slot) >= 0 <==> edits[k].slot in Slots(chs)
    {
    }
    assert forall k | 0 <= k < |edits| :: edits[k].slot in Slots(edits);
  }

  lemma {:induction false} OccursInSlots(chs: seq<Channel>, slot: Slot)
    ensures slot in Slots(chs) <==> Occurrences(chs, slot) > 0
  {
    if chs != [] {
      var n := |chs| - 1;
      OccursInSlots(chs[..n], slot);
      SlotsSnoc(chs, n);
      assert chs[..n + 1] == chs;
    }
  }

  /** What one pass over the rows has found out. */
  ghost predicate Judged(chs: seq<Channel>, index: map<Slot, nat>,
                         unknown: set<Slot>, seen: map<Slot, nat>, repeated: set<Slot>) {
    && unknown == UnknownTo(index, chs)
    && (forall s :: Occurrences(chs, s) == if s in seen then seen[s] else 0)
    && repeated == Repeated(chs)
  }

  function UnknownTo(index: map<Slot, nat>, chs: seq<Channel>): set<Slot> {
    set s | s in Slots(chs) && s !in index
  }

  lemma UnknownSnoc(chs: seq<Channel>, index: map<Slot, nat>, c: Channel)
    ensures UnknownTo(index, chs + [c]) == UnknownTo(index, chs) + if c.slot in index then {} else {c.slot}
  {
    assert (chs + [c])[..|chs|] == chs;
    SlotsSnoc(chs + [c], |chs|);
    assert (chs + [c])[..|chs| + 1] == chs + [c];
  }

  lemma OccurrencesSnoc(chs: seq<Channel>, c: Channel, s: Slot)
    ensures Occurrences(chs + [c], s) == Occurrences(chs, s) + if s == c.slot then 1 else 0
  {
    assert (chs + [c])[..|chs|] == chs;
  }

  lemma RepeatedSnoc(chs: seq<Channel>, c: Channel)
    ensures Repeated(chs + [c]) == Repeated(chs) + if Occurrences(chs, c.slot) >= 1 then {c.slot} else {}
  {
    forall s
      ensures s in Slots(chs + [c]) && Occurrences(chs + [c], s) >= 2 <==>
              (s in Slots(chs) && Occurrences(chs, s) >= 2) || (s == c.slot && Occurrences(chs, s) >= 1)
    {
      OccurrencesSnoc(chs, c, s);
      OccursInSlots(chs, s);
      OccursInSlots(chs + [c], s);
    }
  }

  lemma JudgedOneMore(chs: seq<Channel>, c: Channel, index: map<Slot, nat>,
                      unknown: set<Slot>, seen: map<Slot, nat>, repeated: set<Slot>)
    requires Judged(chs, index, unknown, seen, repeated)
    ensures var n := (if c.slot in seen then seen[c.slot] else 0) + 1;
            Judged(chs + [c], index, if c.slot in index then unknown else unknown + {c.slot}, seen[c.slot := n],
                   if n == 2 then repeated + {c.slot} else repeated)
  {
    UnknownSnoc(chs, index, c);
    RepeatedSnoc(chs, c);
    forall s
      ensures Occurrences(chs + [c], s) == Occurrences(chs, s) + if s == c.slot then 1 else 0
    {
      OccurrencesSnoc(chs, c, s);
    }
    if Occurrences(chs, c.slot) >= 2 {
      OccursInSlots(chs, c.slot);
    }
  }

  /** One pass over the imported rows finds the unknown and the repeated slots. */
  method TallyRows(imported: seq<Channel>, index: map<Slot, nat>) returns (unknown: set<Slot>, duplicated: set<Slot>)
    ensures unknown == UnknownTo(index, imported) && duplicated == Repeated(imported)
  {
    unknown, duplicated := {}, {};
    var seen: map<Slot, nat> := map[];
    var k := 0;
    while k < |imported|
      invariant 0 <= k <= |imported| && Judged(imported[..k], index, unknown, seen, duplicated)
    {
      var slot := imported[k].slot;
      JudgedOneMore(imported[..k], imported[k], index, unknown, seen, duplicated);
      assert imported[..k + 1] == imported[..k] + [imported[k]];
      unknown := if slot in index then unknown else unknown + {slot};
      var n := (if slot in seen then seen[slot] else 0) + 1;
      seen := seen[slot := n];
      duplicated := if n == 2 then duplicated + {slot} else duplicated;
      k := k + 1;
    }
    assert imported[..k] == imported;
  }

  /** Unknown slots are refused before repeated ones. */
  method JudgeChirp(imported: seq<Channel>, index: map<Slot, nat>, ghost base: seq<Channel>) returns (v: Verdict)
    requires Indexes(index, base)
    ensures v == ChirpVerdict(base, imported)
  {
    var unknown, duplicated := TallyRows(imported, index);
    UnknownExactly(imported, index, base);
    if |unknown| > 0 {
      return UnknownSlots(unknown);
    }
    if |duplicated| > 0 {
      return DuplicateSlots(duplicated);
    }
    return Merged;
  }

  lemma UnknownExactly(imported: seq<Channel>, index: map<Slot, nat>, base: seq<Channel>)
    requires Indexes(index, base)
    ensures UnknownTo(index, imported) == Slots(imported) - Slots(base)
    ensures Slots(imported) <= Slots(base) <==> |UnknownTo(index, imported)| == 0
  {
    forall s
      ensures s in index <==> s in Slots(base)
    {
      if s in Slots(base) {
        var i :| 0 <= i < |base| && base[i].slot == s;
        assert LastIndex(base, s) >= i;
      }
    }
    if |UnknownTo(index, imported)| == 0 {
      forall s | s in Slots(imported)
        ensures s in Slots(base)
      {
        assert s !in UnknownTo(index, imported);
      }
    }
  }

  method MergeChirp(channels: array<Channel>, imported: seq<Channel>) returns (v: Verdict)
    modifies channels
    ensures v == ChirpVerdict(old(channels[..]), imported)
    ensures v.Merged? ==> AllKnown(old(channels[..]), imported) && channels[..] == Placed(old(channels[..]), imported)
    ensures !v.Merged? ==> channels[..] == old(channels[..])
  {
    var index := BuildIndex(channels);
    v := JudgeChirp(imported, index, channels[..]);
    KnownExactly(channels[..], imported);
    if v.Merged? {
      PlaceEdits(channels, imported, index);
    }
  }

  // ---- what the verdicts mean

  ghost predicate Has(chs: seq<Channel>, s: Slot) {
    exists i :: 0 <= i < |chs| && chs[i].slot == s
  }

  /** A CSV is accepted if and only if it has the slots of the target; else it is told what each of them lacks. */
  lemma CsvVerdictExactly(base: seq<Channel>, imported: seq<Channel>)
    ensures var v := CsvVerdict(Slots(base), Slots(imported));
            && (v.Merged? <==> forall s :: Has(base, s) <==> Has(imported, s))
            && (!v.Merged? ==>
                  && v.InventoryMismatch?
                  && (forall s :: s in v.missing <==> Has(base, s) && !Has(imported, s))
                  && forall s :: s in v.extra <==> !Has(base, s) && Has(imported, s))
  {
    assert forall s :: Has(base, s) <==> s in Slots(base);
    assert forall s :: Has(imported, s) <==> s in Slots(imported);
  }

  ghost predicate Twice(chs: seq<Channel>, s: Slot) {
    exists i, j :: 0 <= i < j < |chs| && chs[i].slot == s && chs[j].slot == s
  }

  lemma TwiceMore(chs: seq<Channel>, s: Slot)
    requires chs != []
    ensures var n := |chs| - 1; Twice(chs, s) <==> Twice(chs[..n], s) || (chs[n].slot == s && Has(chs[..n], s))
  {
    var n := |chs| - 1;
    assert forall i | 0 <= i < n :: chs[..n][i] == chs[i];
  }

  lemma {:induction false} OccurrencesTell(chs: seq<Channel>, s: Slot)
    ensures Occurrences(chs, s) >= 1 <==> Has(chs, s)
    ensures Occurrences(chs, s) >= 2 <==> Twice(chs, s)
  {
    if chs != [] {
      var n := |chs| - 1;
      OccurrencesTell(chs[..n], s);
      TwiceMore(chs, s);
      assert Has(chs, s) <==> chs[n].slot == s || Has(chs[..n], s) by {
        assert forall i | 0 <= i < n :: chs[..n][i] == chs[i];
      }
    }
  }

  /**
   A CHIRP file is accepted if and only if every row's slot is known and no two rows
   share one; unknown slots come first, and are all named, as the repeated ones are.
   */
  lemma ChirpVerdictExactly(base: seq<Channel>, imported: seq<Channel>)
    ensures var v := ChirpVerdict(base, imported);
            && (v.UnknownSlots? <==> exists s :: Has(imported, s) && !Has(base, s))
            && (v.Merged? <==> !v.UnknownSlots? && forall s :: !Twice(imported, s))
            && (v.UnknownSlots? ==> forall s :: s in v.slots <==> Has(imported, s) && !Has(base, s))
            && (!v.UnknownSlots? && !v.Merged? ==>
                  v.DuplicateSlots? && forall s :: s in v.slots <==> Twice(imported, s))
  {
    forall s
      ensures s in Repeated(imported) <==> Twice(imported, s)
    {
      OccurrencesTell(imported, s);
      OccursInSlots(imported, s);
    }
    assert forall s :: Has(base, s) <==> s in Slots(base);
    assert forall s :: Has(imported, s) <==> s in Slots(imported);
  }

  // ---- what an accepted merge does

  /** Without a repeated slot, every imported row is in the result, and the rest is untouched. */
  lemma ChirpPlacesEveryRow(base: seq<Channel>, imported: seq<Channel>)
    requires ChirpVerdict(base, imported).Merged?
    ensures AllKnown(base, imported)
    ensures forall k | 0 <= k < |imported| ::
              Placed(base, imported)[LastIndex(base, imported[k].slot)] == imported[k]
    ensures forall i | 0 <= i < |base| && base[i].slot !in Slots(imported) :: Placed(base, imported)[i] == base[i]
  {
    KnownExactly(base, imported);
    forall k | 0 <= k < |imported|
      ensures Placed(base, imported)[LastIndex(base, imported[k].slot)] == imported[k]
    {
      OneRowASlot(imported, k, LastIndex(imported, imported[k].slot));
      PlacedAt(base, imported, LastIndex(base, imported[k].slot));
    }
    forall i | 0 <= i < |base| && base[i].slot !in Slots(imported)
      ensures Placed(base, imported)[i] == base[i]
    {
      PlacedAt(base, imported, i);
    }
  }

  lemma OneRowASlot(chs: seq<Channel>, i: nat, j: nat)
    requires i <= j < |chs| && chs[i].slot == chs[j].slot && chs[i].slot !in Repeated(chs)
    ensures i == j
  {
    if i < j {
      TwiceIsRepeated(chs, i, j);
    }
  }

  lemma {:induction false} TwiceIsRepeated(chs: seq<Channel>, i: nat, j: nat)
    requires i < j < |chs| && chs[i].slot == chs[j].slot
    ensures chs[i].slot in Repeated(chs)
  {
    var n := |chs| - 1;
    if j < n {
      TwiceIsRepeated(chs[..n], i, j);
    } else {
      assert chs[..n][i].slot in Slots(chs[..n]);
      OccursInSlots(chs[..n], chs[i].slot);
    }
    OccursInSlots(chs, chs[i].slot);
  }
}

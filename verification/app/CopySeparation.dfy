/**
 The controller's two codeplugs in the heap.  The radio's copy (`baseline`), the
 working copy and every snapshot handed out of the lock stay disjoint, so an edit
 made in place reaches nothing but the working copy.
 */
module CopySeparation {
  import opened CodeplugHeap
  import opened BatchEdits
  import opened Merges

  // ---- one codeplug

  /** Editing the channels in place writes none of the codeplug's other parts. */
  method EditChannels(cp: Codeplug, edits: seq<Channel>, norm: Normaliser) returns (applied: bool)
    requires cp.Valid()
    modifies cp.channels, DataObjects(cp.channels[..]), DataObjects(edits)
    ensures cp.failed[..] == old(cp.failed[..])
    ensures MenuValue(cp.menus) == old(MenuValue(cp.menus)) && ImageValue(cp.raw) == old(ImageValue(cp.raw))
    ensures applied == AllKnown(old(cp.channels[..]), edits)
    ensures cp.channels[..] == if applied then Placed(old(cp.channels[..]), edits) else old(cp.channels[..])
    ensures ChannelValues(cp.channels[..]) ==
            if applied then Normalised(cp.channels[..], old(ChannelValues(Placed(cp.channels[..], edits))), norm)
            else old(ChannelValues(cp.channels[..]))
  {
    applied := ApplyEdits(cp.channels, edits, norm);
  }

  /** A batch applied to a codeplug changes its channels alone and takes in nothing but the edits' data. */
  method ApplyEditsTo(cp: Codeplug, edits: seq<Channel>, norm: Normaliser) returns (applied: bool)
    requires cp.Valid()
    modifies cp`repr, cp.channels, DataObjects(cp.channels[..]), DataObjects(edits)
    ensures cp.Valid() && cp.repr == old(cp.repr) + DataObjects(edits)
    ensures applied == AllKnown(old(cp.channels[..]), edits)
    ensures cp.channels[..] == if applied then Placed(old(cp.channels[..]), edits) else old(cp.channels[..])
    ensures cp.View() == old(cp.View()).(channels :=
              if applied then Normalised(cp.channels[..], old(ChannelValues(Placed(cp.channels[..], edits))), norm)
              else old(ChannelValues(cp.channels[..])))
  {
    applied := EditChannels(cp, edits, norm);
    if applied {
      PlacedObjects(old(cp.channels[..]), edits);
    }
    cp.Adopt(DataObjects(edits));
    OnlyChannelsChanged(cp);
  }

  /** Normalising imported channels writes no other part of a codeplug. */
  method NormaliseImported(cp: Codeplug, imported: array<Channel>, norm: Normaliser, reopen: Normaliser)
    modifies DataObjects(imported[..])
    ensures imported[..] == old(imported[..]) && cp.failed[..] == old(cp.failed[..])
    ensures MenuValue(cp.menus) == old(MenuValue(cp.menus)) && ImageValue(cp.raw) == old(ImageValue(cp.raw))
    ensures ChannelValues(imported[..]) ==
            Normalised(imported[..], Normalised(imported[..], old(ChannelValues(imported[..])), norm), reopen)
  {
    NormaliseTierFields(imported, norm);
    NormaliseTierFields(imported, reopen);
  }

  /** A CSV's channels take the place of a codeplug's. */
  method ReplaceChannels(cp: Codeplug, imported: array<Channel>, norm: Normaliser, reopen: Normaliser)
    requires cp.Valid()
    modifies cp`channels, cp`repr, DataObjects(imported[..])
    ensures cp.Valid() && cp.repr == old(cp.repr) + {imported} + DataObjects(imported[..])
    ensures cp.channels == imported && imported[..] == old(imported[..])
    ensures cp.View() == old(cp.View()).(channels :=
              Normalised(imported[..], Normalised(imported[..], old(ChannelValues(imported[..])), norm), reopen))
  {
    NormaliseImported(cp, imported, norm, reopen);
    cp.TakeChannels(imported);
    OnlyChannelsChanged(cp);
  }

  method PlaceRows(cp: Codeplug, imported: seq<Channel>) returns (v: Verdict)
    requires cp.Valid()
    modifies cp.channels
    ensures cp.failed[..] == old(cp.failed[..])
    ensures MenuValue(cp.menus) == old(MenuValue(cp.menus)) && ImageValue(cp.raw) == old(ImageValue(cp.raw))
    ensures v == ChirpVerdict(old(cp.channels[..]), imported)
    ensures v.Merged? ==> AllKnown(old(cp.channels[..]), imported)
    ensures cp.channels[..] == if v.Merged? then Placed(old(cp.channels[..]), imported) else old(cp.channels[..])
    ensures DataObjects(cp.channels[..]) <= old(cp.repr) + DataObjects(imported)
    ensures ChannelValues(cp.channels[..]) == old(ChannelValues(
              if v.Merged? then Placed(cp.channels[..], imported) else cp.channels[..]))
  {
    v := MergeChirp(cp.channels, imported);
    if v.Merged? {
      PlacedObjects(old(cp.channels[..]), imported);
    }
    ValuesKept(cp.channels[..]);
  }

  /** A CHIRP file's rows are written over a codeplug's. */
  method MergeRows(cp: Codeplug, imported: seq<Channel>) returns (v: Verdict)
    requires cp.Valid()
    modifies cp`repr, cp.channels
    ensures cp.Valid() && cp.repr == old(cp.repr) + DataObjects(imported)
    ensures v == ChirpVerdict(old(cp.channels[..]), imported)
    ensures v.Merged? ==> AllKnown(old(cp.channels[..]), imported)
    ensures cp.View() == old(cp.View()).(channels :=
              old(ChannelValues(if v.Merged? then Placed(cp.channels[..], imported) else cp.channels[..])))
  {
    v := PlaceRows(cp, imported);
    cp.Adopt(DataObjects(imported));
    OnlyChannelsChanged(cp);
  }

  // ---- the two copies

  class Copies {
    var baseline: Codeplug?
    var working: Codeplug?

    /** Every object of every snapshot handed to code outside the lock. */
    ghost var lent: set<object>

    constructor ()
      ensures baseline == null && working == null && lent == {} && Separate()
    {
      baseline, working, lent := null, null, {};
    }

    ghost predicate Separate()
      reads this, baseline, working
      reads if baseline == null then {} else baseline.repr
      reads if working == null then {} else working.repr
    {
      && this !in lent
      && (baseline != null ==> baseline.Valid() && this !in baseline.repr && baseline.repr !! lent)
      && (working != null ==> working.Valid() && this !in working.repr && working.repr !! lent)
      && (baseline != null && working != null ==> baseline.repr !! working.repr)
    }

    /** Objects that are neither the baseline's nor any snapshot's. */
    ghost predicate Apart(objects: set<object>)
      reads this, baseline
    {
      this !in objects && objects !! lent && (baseline != null ==> objects !! baseline.repr)
    }

    /** ReadRadio and ReceiveCloneImage: `cp` becomes the baseline, a copy of it the working copy. */
    method StoreFromRadio(cp: Codeplug)
      requires Separate() && cp.Valid() && this !in cp.repr && cp.repr !! lent
      modifies this
      ensures Separate() && lent == old(lent)
      ensures baseline == cp && fresh(working) && fresh(working.repr)
      ensures cp.View() == old(cp.View()) && working.View() == old(cp.View())
    {
      var copy := DeepCopyCodeplug(cp);
      label copied:
      baseline, working := cp, copy;
      ViewKept@copied(copy);
      ViewKept(cp);
    }

    /** A file load replaces the working copy only. */
    method StoreLoaded(cp: Codeplug)
      requires Separate() && cp.Valid() && Apart(cp.repr)
      modifies this
      ensures Separate() && lent == old(lent) && working == cp && baseline == old(baseline)
      ensures cp.View() == old(cp.View()) && (baseline != null ==> baseline.View() == old(baseline.View()))
    {
      working := cp;
    }

    /** What SaveFile and PrepareSend take out of the lock with them. */
    method Snapshot() returns (copy: Codeplug)
      requires Separate() && working != null
      modifies this
      ensures Separate() && baseline == old(baseline) && working == old(working)
      ensures baseline != null ==> baseline.View() == old(baseline.View())
      ensures copy.Valid() && fresh(copy.repr) && lent == old(lent) + copy.repr
      ensures copy.View() == old(working.View()) && working.View() == old(working.View())
    {
      copy := DeepCopyCodeplug(working);
      label copied:
      lent := lent + copy.repr;
      ViewKept@copied(copy);
      ViewKept(working);
      if baseline != null {
        ViewKept(baseline);
      }
    }

    /** A settings read replaces the menus. */
    method StoreMenus(merged: MenuSnapshot?)
      requires Separate() && working != null && Apart(MenuObjects(merged))
      modifies working
      ensures Separate() && lent == old(lent) && baseline == old(baseline) && working == old(working)
      ensures unchanged(lent) && (baseline != null ==> baseline.View() == old(baseline.View()))
      ensures working.View() == old(working.View()).(menus := MenuValue(merged))
    {
      working.menus := merged;
      working.repr := working.repr + MenuObjects(merged);
    }

    /**
     A batch of edits, applied in place: all of them or, when a slot is unknown,
     none.  What it may touch is the working copy and the edits' own data, which
     becomes the working copy's.
     */
    method UpdateChannels(edits: seq<Channel>, norm: Normaliser) returns (applied: bool)
      requires Separate() && working != null && Apart(DataObjects(edits))
      modifies working.repr, DataObjects(edits)
      ensures Separate() && lent == old(lent) && baseline == old(baseline) && working == old(working)
      ensures unchanged(lent) && (baseline != null ==> baseline.View() == old(baseline.View()))
      ensures applied == AllKnown(old(working.channels[..]), edits)
      ensures working.View() == old(working.View()).(channels :=
                if applied
                then Normalised(Placed(old(working.channels[..]), edits),
                                old(ChannelValues(Placed(working.channels[..], edits))), norm)
                else old(ChannelValues(working.channels[..])))
    {
      applied := ApplyEditsTo(working, edits, norm);
      if baseline != null {
        ViewKept(baseline);
      }
    }

    /** A CSV with the working copy's slots takes the place of its channels, and is normalised and reopened. */
    method ImportCsv(imported: array<Channel>, norm: Normaliser, reopen: Normaliser) returns (v: Verdict)
      requires Separate() && working != null && Apart({imported} + DataObjects(imported[..]))
      modifies working, DataObjects(imported[..])
      ensures Separate() && lent == old(lent) && baseline == old(baseline) && working == old(working)
      ensures unchanged(lent) && (baseline != null ==> baseline.View() == old(baseline.View()))
      ensures v == CsvVerdict(old(Slots(working.channels[..])), Slots(imported[..]))
      ensures imported[..] == old(imported[..])
      ensures !v.Merged? ==> working.View() == old(working.View())
      ensures v.Merged? ==> working.channels == imported
      ensures v.Merged? ==> working.View() == old(working.View()).(channels :=
                              Normalised(imported[..],
                                         Normalised(imported[..], old(ChannelValues(imported[..])), norm), reopen))
    {
      v := JudgeCsv(working.channels, imported);
      ViewKept(working);
      ValuesKept(imported[..]);
      if v.Merged? {
        ReplaceChannels(working, imported, norm, reopen);
      }
      if baseline != null {
        ViewKept(baseline);
      }
    }

    /** A CHIRP file's rows are written over the working copy's, by slot, and not normalised. */
    method ImportChirp(imported: seq<Channel>) returns (v: Verdict)
      requires Separate() && working != null && Apart(DataObjects(imported))
      modifies working, working.channels
      ensures Separate() && lent == old(lent) && baseline == old(baseline) && working == old(working)
      ensures unchanged(lent) && (baseline != null ==> baseline.View() == old(baseline.View()))
      ensures v == ChirpVerdict(old(working.channels[..]), imported)
      ensures v.Merged? ==> AllKnown(old(working.channels[..]), imported)
      ensures working.View() == old(working.View()).(channels :=
                old(ChannelValues(if v.Merged? then Placed(working.channels[..], imported) else working.channels[..])))
    {
      v := MergeRows(working, imported);
      if baseline != null {
        ViewKept(baseline);
      }
    }
  }
}

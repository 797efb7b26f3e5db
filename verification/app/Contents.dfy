/**
 What `dirty == false` means: the working copy is what some radio read, clone
 receive, file load or completed save left behind.
 */
module Contents {
  import opened Results
  import opened AppSections
  import opened Protocol

  /** Contents known to a radio or to a file, as opposed to only to the working copy. */
  ghost predicate Clean(s: Sys) {
    s.app.working.Some? && !s.app.dirty ==> s.app.working.value in s.settled
  }

  ghost predicate ContentPcInv(s: Sys, pc: Pc) {
    && (pc.RdStore? || pc.LdCommit? || pc.RcStore? ==> pc.cp in s.settled)
    && (pc.SvFinish? ==> pc.copy in s.settled)
    && (pc.SvWriting? || pc.SvFinish? ==>
          pc.at <= s.bumps && pc.rev == pc.at % REVISIONS && (pc.at == s.bumps ==> s.app.working == Some(pc.copy)))
    && (pc.RsReading? || pc.RsMerge? ==> s.app.working.Some?)
  }

  ghost predicate ContentStateInv(s: Sys) {
    && s.app.workingRev == s.bumps % REVISIONS
    && (s.app.baseline.Some? ==> s.app.baseline.value in s.settled)
    && Clean(s)
  }

  ghost predicate ContentInv(s: Sys) {
    && ContentStateInv(s)
    && forall u | u in s.pcs :: ContentPcInv(s, s.pcs[u])
  }

  /** Every change of the working copy is counted, and is either dirty or settled. */
  ghost predicate ContentMove(s: Sys, m: Moved) {
    && m.sys.pcs == s.pcs && s.settled <= m.sys.settled
    && (|| (m.sys.bumps == s.bumps && m.sys.app.workingRev == s.app.workingRev && m.sys.app.working == s.app.working)
        || (m.sys.bumps == s.bumps + 1 && m.sys.app.workingRev == NextRev(s.app.workingRev) && m.sys.app.working.Some?))
    && (m.sys.app.working != s.app.working || m.sys.app.dirty != s.app.dirty ==> Clean(m.sys))
    && (m.sys.app.baseline == s.app.baseline
        || (m.sys.app.baseline.Some? && m.sys.app.baseline.value in m.sys.settled))
  }

  lemma ContentKept(s: Sys, m: Moved, t: Tid)
    requires ContentInv(s) && ContentMove(s, m)
    requires m.next.Some? ==> ContentPcInv(m.sys, m.next.value)
    ensures ContentInv(Land(m, t))
  {
    forall u | u in s.pcs && u != t
      ensures ContentPcInv(Land(m, t), s.pcs[u])
    {
      assert ContentPcInv(s, s.pcs[u]);
    }
  }

  /**
   A finishing save that finds the counter it started from, after a multiple of
   2^64 changes, does no harm if the working copy is settled all the same.
   */
  ghost predicate SoundAt(s: Sys, pc: Pc) {
    pc.SvFinish? ==>
      || s.bumps == pc.at || (s.bumps - pc.at) % REVISIONS != 0
      || (s.app.working.Some? ==> s.app.working.value in s.settled)
  }

  /** Fewer than 2^64 changes since the snapshot: what a caller can see to. */
  predicate TimelyAt(s: Sys, pc: Pc) {
    pc.SvFinish? ==> s.bumps < pc.at + REVISIONS
  }

  lemma SameRevision(b: nat, at: nat)
    requires at <= b
    ensures b % REVISIONS == at % REVISIONS <==> (b - at) % REVISIONS == 0
  {
  }

  lemma TimelyIsSound(s: Sys, pc: Pc)
    requires ContentPcInv(s, pc) && TimelyAt(s, pc)
    ensures SoundAt(s, pc)
  {
  }

  ghost predicate ContentStep(s: Sys, m: Moved) {
    ContentMove(s, m) && (m.next.Some? ==> ContentPcInv(m.sys, m.next.value))
  }

  ghost predicate ContentUntouched(s: Sys, m: Moved) {
    && m.sys.pcs == s.pcs && m.sys.settled == s.settled && m.sys.bumps == s.bumps
    && m.sys.app.workingRev == s.app.workingRev && m.sys.app.working == s.app.working
    && m.sys.app.dirty == s.app.dirty && m.sys.app.baseline == s.app.baseline
    && (m.next.Some? ==> ContentPcInv(m.sys, m.next.value))
  }

  lemma StartRadioContent(s: Sys, t: Tid, call: Call)
    requires ReservedCall(call) && !call.CallReadSettings? && !call.CallPrepareSend?
    ensures ContentUntouched(s, StartReserved(s, t, call))
  {
  }

  lemma StartPrepareContent(s: Sys, t: Tid)
    ensures ContentUntouched(s, StartReserved(s, t, CallPrepareSend))
  {
  }

  lemma StartSettingsContent(s: Sys, t: Tid)
    ensures ContentUntouched(s, StartReserved(s, t, CallReadSettings))
  {
  }

  lemma StartFileContent(s: Sys, call: Call)
    requires ContentStateInv(s) && FileCall(call)
    ensures ContentStep(s, StartFile(s, call))
  {
  }

  lemma StartConnectionContent(s: Sys, t: Tid, call: Call)
    requires ConnectionCall(call)
    ensures ContentUntouched(s, StartConnection(s, t, call))
  {
  }

  lemma StartSendContent(s: Sys, t: Tid, call: Call)
    requires SendCall(call)
    ensures ContentUntouched(s, StartSend(s, t, call))
  {
  }

  lemma StartCloneContent(s: Sys, t: Tid, call: Call)
    requires CloneCall(call)
    ensures ContentUntouched(s, StartClone(s, t, call))
  {
  }

  lemma StepReservedContent(s: Sys, pc: Pc, out: Outcome)
    requires ContentStateInv(s) && ContentPcInv(s, pc) && IsReserved(pc)
    ensures ContentStep(s, StepReserved(s, pc, out))
  {
  }

  lemma FinishContent(s: Sys, pc: Pc, out: Outcome)
    requires ContentStateInv(s) && ContentPcInv(s, pc) && pc.SvFinish? && SoundAt(s, pc)
    ensures ContentStep(s, StepFile(s, pc, out))
  {
    SameRevision(s.bumps, pc.at);
  }

  lemma StepFileContent(s: Sys, pc: Pc, out: Outcome)
    requires ContentStateInv(s) && ContentPcInv(s, pc) && IsFile(pc) && SoundAt(s, pc)
    ensures ContentStep(s, StepFile(s, pc, out))
  {
    if pc.SvFinish? {
      FinishContent(s, pc, out);
    }
  }

  lemma StepConnectionContent(s: Sys, t: Tid, pc: Pc, out: Outcome)
    requires IsConnection(pc)
    ensures ContentUntouched(s, StepConnection(s, t, pc, out))
  {
  }

  lemma StepSendContent(s: Sys, pc: Pc, out: Outcome)
    requires IsSend(pc)
    ensures ContentUntouched(s, StepSend(s, pc, out))
  {
  }

  lemma StepOpeningContent(s: Sys, pc: Pc, out: Outcome)
    requires IsOpening(pc)
    ensures ContentUntouched(s, StepOpening(s, pc, out))
  {
  }

  lemma StepUnwindingContent(s: Sys, t: Tid, pc: Pc)
    requires IsUnwinding(pc)
    ensures ContentUntouched(s, StepUnwinding(s, t, pc))
  {
  }

  lemma StepCloneContent(s: Sys, pc: Pc, out: Outcome)
    requires ContentStateInv(s) && ContentPcInv(s, pc) && IsClone(pc)
    ensures ContentStep(s, StepClone(s, pc, out))
  {
  }

  predicate Timely(s: Sys, e: Event) {
    e.Advance? && e.t in s.pcs ==> TimelyAt(s, s.pcs[e.t])
  }

  ghost predicate Sound(s: Sys, e: Event) {
    e.Advance? && e.t in s.pcs ==> SoundAt(s, s.pcs[e.t])
  }

  lemma StartContent(s: Sys, t: Tid, call: Call)
    requires ContentInv(s)
    ensures ContentStep(s, StartCall(s, t, call))
  {
    if call.CallPrepareSend? { StartPrepareContent(s, t); }
    else if call.CallReadSettings? { StartSettingsContent(s, t); }
    else if ReservedCall(call) { StartRadioContent(s, t, call); }
    else if FileCall(call) { StartFileContent(s, call); }
    else if ConnectionCall(call) { StartConnectionContent(s, t, call); }
    else if SendCall(call) { StartSendContent(s, t, call); }
    else { StartCloneContent(s, t, call); }
  }

  lemma StepContent(s: Sys, t: Tid, out: Outcome)
    requires ContentInv(s) && t in s.pcs && SoundAt(s, s.pcs[t])
    ensures ContentStep(s, Step(s, t, out))
  {
    var pc := s.pcs[t];
    if IsReserved(pc) { StepReservedContent(s, pc, out); }
    else if IsFile(pc) { StepFileContent(s, pc, out); }
    else if IsConnection(pc) { StepConnectionContent(s, t, pc, out); }
    else if IsSend(pc) { StepSendContent(s, pc, out); }
    else if IsClone(pc) { StepCloneContent(s, pc, out); }
    else if IsOpening(pc) { StepOpeningContent(s, pc, out); }
    else { StepUnwindingContent(s, t, pc); }
  }

  lemma ContentPreserved(s: Sys, e: Event)
    requires ContentInv(s) && Enabled(s, e) && Sound(s, e)
    ensures ContentInv(Apply(s, e))
  {
    match e
    case Start(t, call) =>
      StartContent(s, t, call);
      ContentKept(s, StartCall(s, t, call), t);
    case Advance(t, out) =>
      StepContent(s, t, out);
      ContentKept(s, Step(s, t, out), t);
  }

  lemma FilesKeepBaseline(s: Sys, call: Call, pc: Pc, out: Outcome)
    ensures FileCall(call) ==> StartFile(s, call).sys.app.baseline == s.app.baseline
    ensures IsFile(pc) ==> StepFile(s, pc, out).sys.app.baseline == s.app.baseline
  {
  }

  lemma StartKeepsBaseline(s: Sys, t: Tid, call: Call)
    ensures StartCall(s, t, call).sys.app.baseline == s.app.baseline
  {
    if call.CallPrepareSend? { StartPrepareContent(s, t); }
    else if call.CallReadSettings? { StartSettingsContent(s, t); }
    else if ReservedCall(call) { StartRadioContent(s, t, call); }
    else if FileCall(call) { FilesKeepBaseline(s, call, ImParsing, Outcome(true, 0)); }
    else if ConnectionCall(call) { StartConnectionContent(s, t, call); }
    else if SendCall(call) { StartSendContent(s, t, call); }
    else { StartCloneContent(s, t, call); }
  }

  lemma StepKeepsBaseline(s: Sys, t: Tid, out: Outcome)
    requires t in s.pcs && !IsReserved(s.pcs[t]) && !IsClone(s.pcs[t])
    ensures Step(s, t, out).sys.app.baseline == s.app.baseline
  {
    var pc := s.pcs[t];
    if IsFile(pc) { FilesKeepBaseline(s, CallImport, pc, out); }
    else if IsConnection(pc) { StepConnectionContent(s, t, pc, out); }
    else if IsSend(pc) { StepSendContent(s, pc, out); }
    else if IsOpening(pc) { StepOpeningContent(s, pc, out); }
    else { StepUnwindingContent(s, t, pc); }
  }

  lemma StepStoresBaseline(s: Sys, t: Tid, out: Outcome)
    requires t in s.pcs && (IsReserved(s.pcs[t]) || IsClone(s.pcs[t]))
    ensures var pc, a := s.pcs[t], Step(s, t, out).sys.app;
            if pc.RdStore? || pc.RcStore? then a.baseline == Some(pc.cp) && a.working == a.baseline && !a.dirty
            else a.baseline == s.app.baseline
  {
  }

  /** Only the storing section of a radio read or a clone receive replaces the baseline. */
  lemma BaselineComesFromRadio(s: Sys, e: Event)
    requires Enabled(s, e)
    ensures if e.Advance? && (s.pcs[e.t].RdStore? || s.pcs[e.t].RcStore?)
            then Apply(s, e).app.baseline == Some(s.pcs[e.t].cp) && Apply(s, e).app.working == Some(s.pcs[e.t].cp)
            else Apply(s, e).app.baseline == s.app.baseline
  {
    if e.Start? {
      StartKeepsBaseline(s, e.t, e.call);
    } else if IsReserved(s.pcs[e.t]) || IsClone(s.pcs[e.t]) {
      StepStoresBaseline(s, e.t, e.out);
    } else {
      StepKeepsBaseline(s, e.t, e.out);
    }
  }

  // ---- every run, with no front-end discipline assumed

  /** No state of the schedule shows a clean working copy that no radio and no file has. */
  ghost predicate AlwaysClean(s: Sys, es: seq<Event>)
    requires Schedule(s, es)
    decreases |es|
  {
    Clean(s) && (es != [] ==> AlwaysClean(Apply(s, es[0]), es[1..]))
  }

  /** Every save that finishes on a reused revision finds the working copy settled. */
  ghost predicate SoundRun(s: Sys, es: seq<Event>)
    requires Schedule(s, es)
    decreases |es|
  {
    es != [] ==> Sound(s, es[0]) && SoundRun(Apply(s, es[0]), es[1..])
  }

  /** A run in which no save outlives 2^64 changes of the working copy. */
  predicate TimelyRun(s: Sys, es: seq<Event>)
    requires Schedule(s, es)
    decreases |es|
  {
    es != [] ==> Timely(s, es[0]) && TimelyRun(Apply(s, es[0]), es[1..])
  }

  lemma {:induction false} CleanRuns(s: Sys, es: seq<Event>)
    requires ContentInv(s) && Schedule(s, es)
    ensures AlwaysClean(s, es) <==> SoundRun(s, es)
    decreases |es|
  {
    if es != [] {
      if Sound(s, es[0]) {
        ContentPreserved(s, es[0]);
        CleanRuns(Apply(s, es[0]), es[1..]);
      } else {
        FinishingSaveIsClean(s, es[0].t, es[0].out);
      }
    }
  }

  /**
   For every schedule at all: `dirty == false` never tells a lie along it if and
   only if no save finishes on a reused revision over an unsettled working copy.
   */
  lemma CleanExactly(es: seq<Event>)
    requires Schedule(INIT, es)
    ensures AlwaysClean(INIT, es) <==> SoundRun(INIT, es)
  {
    CleanRuns(INIT, es);
  }

  lemma {:induction false} ContentRuns(s: Sys, es: seq<Event>)
    requires ContentInv(s) && Schedule(s, es) && SoundRun(s, es)
    ensures ContentInv(Reached(s, es))
    decreases |es|
  {
    if es != [] {
      ContentPreserved(s, es[0]);
      ContentRuns(Apply(s, es[0]), es[1..]);
    }
  }

  lemma {:induction false} TimelyRuns(s: Sys, es: seq<Event>)
    requires ContentInv(s) && Schedule(s, es) && TimelyRun(s, es)
    ensures SoundRun(s, es)
    decreases |es|
  {
    if es != [] {
      if es[0].Advance? {
        TimelyIsSound(s, s.pcs[es[0].t]);
      }
      ContentPreserved(s, es[0]);
      TimelyRuns(Apply(s, es[0]), es[1..]);
    }
  }

  /** With fewer than 2^64 changes to a save, a working copy that is not dirty is always a settled content. */
  lemma CleanIsSettled(es: seq<Event>)
    requires Schedule(INIT, es) && TimelyRun(INIT, es)
    ensures Clean(Reached(INIT, es))
    ensures var a := Reached(INIT, es).app; a.baseline.Some? ==> a.baseline.value in Reached(INIT, es).settled
  {
    TimelyRuns(INIT, es);
    ContentRuns(INIT, es);
  }

  lemma FinishingKeepsDirty(s: Sys, t: Tid, out: Outcome)
    requires ContentInv(s) && t in s.pcs && s.pcs[t].SvFinish? && TimelyAt(s, s.pcs[t])
    requires s.app.working != Some(s.pcs[t].copy)
    ensures Apply(s, Advance(t, out)).app.dirty == s.app.dirty
  {
    assert ContentPcInv(s, s.pcs[t]);
  }

  /** A working copy that changed while its snapshot was being written is not marked clean by that save. */
  lemma ChangeDuringSaveStaysDirty(es: seq<Event>, t: Tid, out: Outcome)
    requires Schedule(INIT, es) && SoundRun(INIT, es)
    requires var s := Reached(INIT, es);
             t in s.pcs && s.pcs[t].SvFinish? && TimelyAt(s, s.pcs[t]) && s.app.working != Some(s.pcs[t].copy)
    ensures Apply(Reached(INIT, es), Advance(t, out)).app.dirty == Reached(INIT, es).app.dirty
  {
    ContentRuns(INIT, es);
    FinishingKeepsDirty(Reached(INIT, es), t, out);
  }

  // ---- where the 64-bit counter ends the guarantee

  /** The exact condition for one finishing save, whatever happened while it wrote. */
  lemma FinishingSaveIsClean(s: Sys, t: Tid, out: Outcome)
    requires ContentInv(s) && t in s.pcs && s.pcs[t].SvFinish?
    ensures Clean(Apply(s, Advance(t, out))) <==>
              || s.bumps == s.pcs[t].at
              || (s.bumps - s.pcs[t].at) % REVISIONS != 0
              || (s.app.working.Some? ==> s.app.working.value in s.settled)
  {
    assert ContentPcInv(s, s.pcs[t]);
    SameRevision(s.bumps, s.pcs[t].at);
  }

  const EDIT: Event := Start(0, CallEdit(Some(2)))

  /** `n` edits and then `last`. */
  function EditsThen(n: nat, last: Event): seq<Event> {
    if n == 0 then [last] else [EDIT] + EditsThen(n - 1, last)
  }

  /** `n` edits with nothing else going on. */
  function Edited(s: Sys, n: nat): Sys {
    if n == 0 then s
    else s.(app := s.app.(working := Some(2), workingRev := (s.app.workingRev + n) % REVISIONS, dirty := true),
            bumps := s.bumps + n)
  }

  predicate Editable(s: Sys) {
    0 !in s.pcs && s.app.working.Some? && s.app.workingRev < REVISIONS && CheckNotBusy(s.app).None?
  }

  lemma OneEdit(s: Sys)
    requires Editable(s)
    ensures Enabled(s, EDIT) && Apply(s, EDIT) == Edited(s, 1) && Editable(Edited(s, 1))
  {
    assert Apply(s, EDIT).pcs == s.pcs;
  }

  lemma EditedTwice(s: Sys, n: nat)
    ensures Edited(Edited(s, 1), n) == Edited(s, n + 1)
  {
  }

  lemma {:induction false} EditsRun(s: Sys, n: nat, last: Event)
    requires Editable(s) && Enabled(Edited(s, n), last)
    ensures Schedule(s, EditsThen(n, last)) && Reached(s, EditsThen(n, last)) == Apply(Edited(s, n), last)
    decreases n
  {
    if n == 0 {
      Prepend(s, last, Apply(s, last), []);
      assert [last] + [] == [last];
    } else {
      OneEdit(s);
      EditedTwice(s, n - 1);
      EditsRun(Edited(s, 1), n - 1, last);
      Prepend(s, EDIT, Edited(s, 1), EditsThen(n - 1, last));
    }
  }

  const OK: Outcome := Outcome(true, 1)

  const LOADED: Sys :=
    INIT.(app := INIT.app.(working := Some(1), workingRev := 1, workingPath := "f"), bumps := 1, settled := {1})

  /** A state with a file loaded and a save of it about to finish. */
  const SAVING: Sys := LOADED.(pcs := map[1 := SvFinish("f", 1, 1, 1)])

  lemma LoadRuns(es: seq<Event>)
    requires Schedule(LOADED, es)
    ensures Schedule(INIT, [Start(1, CallLoad("f")), Advance(1, OK), Advance(1, OK)] + es)
    ensures Reached(INIT, [Start(1, CallLoad("f")), Advance(1, OK), Advance(1, OK)] + es) == Reached(LOADED, es)
  {
    var s1 := INIT.(pcs := map[1 := LdLoading("f")]);
    var s2 := INIT.(pcs := map[1 := LdCommit("f", 1)], settled := {1});
    assert Apply(s2, Advance(1, OK)) == LOADED;
    Prepend(s2, Advance(1, OK), LOADED, es);
    Prepend(s1, Advance(1, OK), s2, [Advance(1, OK)] + es);
    Prepend(INIT, Start(1, CallLoad("f")), s1, [Advance(1, OK)] + ([Advance(1, OK)] + es));
    assert [Start(1, CallLoad("f"))] + ([Advance(1, OK)] + ([Advance(1, OK)] + es))
        == [Start(1, CallLoad("f")), Advance(1, OK), Advance(1, OK)] + es;
  }

  lemma SaveRuns(es: seq<Event>)
    requires Schedule(SAVING, es)
    ensures Schedule(LOADED, [Start(1, CallSave("f")), Advance(1, OK)] + es)
    ensures Reached(LOADED, [Start(1, CallSave("f")), Advance(1, OK)] + es) == Reached(SAVING, es)
  {
    var s1 := LOADED.(pcs := map[1 := SvWriting("f", 1, 1, 1)]);
    assert Apply(s1, Advance(1, OK)) == SAVING;
    Prepend(s1, Advance(1, OK), SAVING, es);
    Prepend(LOADED, Start(1, CallSave("f")), s1, [Advance(1, OK)] + es);
    assert [Start(1, CallSave("f"))] + ([Advance(1, OK)] + es) == [Start(1, CallSave("f")), Advance(1, OK)] + es;
  }

  lemma RevisionReused(s: Sys, t: Tid, out: Outcome)
    requires t in s.pcs && s.pcs[t].SvFinish? && s.pcs[t].rev == s.app.workingRev
    requires s.app.working.Some? && s.app.working.value !in s.settled
    ensures !Clean(Apply(s, Advance(t, out)))
  {
  }

  lemma AllRevisionsUsed(s: Sys, t: Tid)
    requires Editable(s) && t in s.pcs && 2 !in s.settled
    ensures var end := Edited(s, REVISIONS);
            && end.pcs == s.pcs && end.app.workingRev == s.app.workingRev && end.settled == s.settled
            && end.app.working == Some(2) && Enabled(end, Advance(t, OK))
  {
  }

  lemma EditsOutliveSave(s: Sys, t: Tid)
    requires Editable(s) && t in s.pcs && s.pcs[t].SvFinish? && s.pcs[t].rev == s.app.workingRev && 2 !in s.settled
    ensures Schedule(s, EditsThen(REVISIONS, Advance(t, OK)))
    ensures !Clean(Reached(s, EditsThen(REVISIONS, Advance(t, OK))))
  {
    AllRevisionsUsed(s, t);
    EditsRun(s, REVISIONS, Advance(t, OK));
    RevisionReused(Edited(s, REVISIONS), t, OK);
  }

  lemma SavingIsReached(es: seq<Event>) returns (all: seq<Event>)
    requires Schedule(SAVING, es)
    ensures Schedule(INIT, all) && Reached(INIT, all) == Reached(SAVING, es)
  {
    SaveRuns(es);
    all := [Start(1, CallSave("f")), Advance(1, OK)] + es;
    LoadRuns(all);
    all := [Start(1, CallLoad("f")), Advance(1, OK), Advance(1, OK)] + all;
  }

  lemma SavingIsOutlived()
    ensures Schedule(SAVING, EditsThen(REVISIONS, Advance(1, OK)))
    ensures !Clean(Reached(SAVING, EditsThen(REVISIONS, Advance(1, OK))))
  {
    EditsOutliveSave(SAVING, 1);
  }

  /** Load, then save while exactly 2^64 edits land: clean, yet in no file and in no radio. */
  lemma SaveOutlivedByEdits()
    ensures exists es :: Schedule(INIT, es) && !Clean(Reached(INIT, es))
  {
    var es := EditsThen(REVISIONS, Advance(1, OK));
    SavingIsOutlived();
    var all := SavingIsReached(es);
  }
}

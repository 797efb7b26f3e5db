/**
 What the reservation is for: while a radio operation or a send is under way, the
 working copy changes only by that operation's own hand, and the session it is
 using stays the current one.
 */
module Exclusion {
  import opened Results
  import opened AppSections
  import opened Protocol
  import opened Reservation
  import opened Resources
  import opened Interleavings
  import Contents

  // ---- the working copy

  /** A move that leaves the working copy and its revision alone. */
  predicate LeavesWorking(s: Sys, m: Moved) {
    m.sys.app.working == s.app.working && m.sys.app.workingRev == s.app.workingRev
  }

  lemma BusyStopsFiles(s: Sys, call: Call, pc: Pc, out: Outcome)
    requires CheckNotBusy(s.app).Some?
    ensures FileCall(call) ==> LeavesWorking(s, StartFile(s, call))
    ensures IsFile(pc) ==> LeavesWorking(s, StepFile(s, pc, out))
  {
  }

  lemma BusyStopsStarts(s: Sys, t: Tid, call: Call)
    requires CheckNotBusy(s.app).Some?
    ensures LeavesWorking(s, StartCall(s, t, call))
  {
    if call.CallPrepareSend? { Contents.StartPrepareContent(s, t); }
    else if call.CallReadSettings? { Contents.StartSettingsContent(s, t); }
    else if ReservedCall(call) { Contents.StartRadioContent(s, t, call); }
    else if FileCall(call) { BusyStopsFiles(s, call, ImParsing, Outcome(true, 0)); }
    else if ConnectionCall(call) { Contents.StartConnectionContent(s, t, call); }
    else if SendCall(call) { Contents.StartSendContent(s, t, call); }
    else { Contents.StartCloneContent(s, t, call); }
  }

  lemma BusyStopsSteps(s: Sys, t: Tid, out: Outcome)
    requires CheckNotBusy(s.app).Some? && t in s.pcs && Owes(s.pcs[t]).None?
    ensures LeavesWorking(s, Step(s, t, out))
  {
    var pc := s.pcs[t];
    if IsFile(pc) { BusyStopsFiles(s, CallImport, pc, out); }
    else if IsConnection(pc) { Contents.StepConnectionContent(s, t, pc, out); }
    else if IsSend(pc) { Contents.StepSendContent(s, pc, out); }
    else if IsOpening(pc) { Contents.StepOpeningContent(s, pc, out); }
    else { Contents.StepUnwindingContent(s, t, pc); }
  }

  ghost predicate HeldBy(s: Sys, t: Tid) {
    t in s.pcs && Owes(s.pcs[t]) == Some(s.taken - 1) && s.holder == Some(ByThread(t)) && s.app.opBusy.Some?
  }

  lemma HolderEdits(s: Sys, e: Event)
    requires OpsInv(s) && Enabled(s, e) && CheckNotBusy(s.app).Some?
    ensures || (Apply(s, e).app.working == s.app.working && Apply(s, e).app.workingRev == s.app.workingRev)
            || (e.Advance? && HeldBy(s, e.t))
  {
    match e
    case Start(t, call) => BusyStopsStarts(s, t, call);
    case Advance(t, out) =>
      if Owes(s.pcs[t]).None? {
        BusyStopsSteps(s, t, out);
      }
  }

  /**
   While something holds the reservation or a send is running, an event changes
   the working copy only if it is a step of the one call that holds the latest
   reservation.
   */
  lemma OnlyTheHolderEdits(es: seq<Event>, e: Event)
    requires Run(INIT, es) && Enabled(After(INIT, es), e) && CheckNotBusy(After(INIT, es).app).Some?
    requires var a, b := After(INIT, es).app, Apply(After(INIT, es), e).app;
             a.working != b.working || a.workingRev != b.workingRev
    ensures e.Advance? && HeldBy(After(INIT, es), e.t)
  {
    Reachable(es);
    HolderEdits(After(INIT, es), e);
  }

  // ---- the session

  /** A call that is talking to the radio outside the lock. */
  predicate OnRadio(pc: Pc) {
    pc.RdReading? || pc.PsPreparing? || pc.RsReading? || pc.WsWriting?
  }

  ghost predicate RadioInv(s: Sys) {
    forall u | u in s.pcs && OnRadio(s.pcs[u]) :: s.app.conn == Some(s.pcs[u].session)
  }

  lemma RadioKept(s: Sys, m: Moved, t: Tid)
    requires RadioInv(s) && m.sys.pcs == s.pcs && m.sys.app.conn == s.app.conn
    requires m.next.Some? && OnRadio(m.next.value) ==> s.app.conn == Some(m.next.value.session)
    ensures RadioInv(Land(m, t))
  {
  }

  lemma StartUsesCurrent(s: Sys, t: Tid, call: Call)
    ensures var m := StartCall(s, t, call);
            m.next.Some? && OnRadio(m.next.value) ==> s.app.conn == Some(m.next.value.session)
  {
  }

  lemma StepLeavesRadio(s: Sys, t: Tid, out: Outcome)
    requires t in s.pcs
    ensures var m := Step(s, t, out); m.next.Some? ==> !OnRadio(m.next.value)
  {
  }

  /** A connection is dropped only when nothing is reserved, and made only when there is none. */
  lemma DropKeepsRadio(s: Sys, t: Tid)
    requires OpsInv(s) && RadioInv(s) && t !in s.pcs && CheckNotBusy(s.app).None?
    ensures RadioInv(Land(StartConnection(s, t, CallDisconnect), t))
  {
    forall u | u in s.pcs
      ensures !OnRadio(s.pcs[u])
    {
      assert OnRadio(s.pcs[u]) ==> Owes(s.pcs[u]).Some?;
    }
  }

  lemma InstallKeepsRadio(s: Sys, t: Tid, x: Session, out: Outcome)
    requires RadioInv(s) && PcAt(s, t) == Some(CoInstall(x))
    ensures RadioInv(Land(StepConnection(s, t, CoInstall(x), out), t))
  {
  }

  lemma StartRadio(s: Sys, t: Tid, call: Call)
    requires OpsInv(s) && RadioInv(s) && t !in s.pcs
    ensures RadioInv(Land(StartCall(s, t, call), t))
  {
    var m := StartCall(s, t, call);
    if call.CallDisconnect? && CheckNotBusy(s.app).None? {
      DropKeepsRadio(s, t);
    } else {
      if ReservedCall(call) { StartReservedKeepsSessions(s, t, call); }
      else if FileCall(call) { StartFileKeepsSessions(s, call); }
      else if call.CallConnect? { ConnectStartKeepsSessions(s, t); }
      else if SendCall(call) { StartSendKeepsSessions(s, t, call); }
      else if CloneCall(call) { StartCloneKeepsSessions(s, t, call); }
      StartUsesCurrent(s, t, call);
      RadioKept(s, m, t);
    }
  }

  lemma StepRadio(s: Sys, t: Tid, out: Outcome)
    requires RadioInv(s) && t in s.pcs
    ensures RadioInv(Land(Step(s, t, out), t))
  {
    var pc := s.pcs[t];
    if pc.CoInstall? {
      InstallKeepsRadio(s, t, pc.session, out);
    } else {
      if IsReserved(pc) { StepReservedKeepsSessions(s, pc, out); }
      else if IsFile(pc) { StepFileKeepsSessions(s, pc, out); }
      else if IsSend(pc) { StepSendKeepsSessions(s, pc, out); }
      else if IsClone(pc) { StepCloneKeepsSessions(s, pc, out); }
      else if IsOpening(pc) { StepOpeningKeepsSessions(s, pc, out); }
      else if IsUnwinding(pc) { StepUnwindingKeepsSessions(s, t, pc); }
      StepLeavesRadio(s, t, out);
      RadioKept(s, Step(s, t, out), t);
    }
  }

  lemma {:induction false} RadioRuns(s: Sys, es: seq<Event>)
    requires Inv(s) && RadioInv(s) && Run(s, es)
    ensures RadioInv(After(s, es))
    decreases |es|
  {
    if es != [] {
      match es[0] {
        case Start(t, call) => StartRadio(s, t, call);
        case Advance(t, out) => StepRadio(s, t, out);
      }
      InvPreserved(s, es[0]);
      RadioRuns(Apply(s, es[0]), es[1..]);
    }
  }

  lemma RadioReached(es: seq<Event>)
    requires Run(INIT, es)
    ensures SessionInv(After(INIT, es)) && RadioInv(After(INIT, es))
  {
    Reachable(es);
    RadioRuns(INIT, es);
  }

  ghost predicate OnCurrent(s: Sys, x: Session) {
    s.app.conn == Some(x) && x in s.sessions && s.sessions[x] == Current && s.closes[x] == 0
  }

  lemma RadioIsOnCurrent(s: Sys, u: Tid)
    requires SessionInv(s) && RadioInv(s) && u in s.pcs && OnRadio(s.pcs[u])
    ensures OnCurrent(s, s.pcs[u].session)
  {
  }

  /** A call that is talking to the radio talks to the current session, which nobody has closed. */
  lemma RadioIsNotPulledAway(es: seq<Event>, u: Tid)
    requires Run(INIT, es) && u in After(INIT, es).pcs && OnRadio(After(INIT, es).pcs[u])
    ensures OnCurrent(After(INIT, es), After(INIT, es).pcs[u].session)
  {
    RadioReached(es);
    RadioIsOnCurrent(After(INIT, es), u);
  }
}

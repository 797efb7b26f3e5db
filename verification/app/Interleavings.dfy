/**
 Every interleaving: one event, whatever it is, keeps everything the other
 modules establish group by group.
 */
module Interleavings {
  import opened Results
  import opened AppSections
  import opened Protocol
  import opened Reservation
  import opened CloneAttempts
  import opened Sends
  import opened Resources

  ghost predicate Inv(s: Sys) {
    OpsInv(s) && CloneInv(s) && SendInv(s) && SessionInv(s) && PortInv(s)
  }

  // ---- the reservation

  lemma StartOps(s: Sys, t: Tid, call: Call)
    requires OpsInv(s) && CloneInv(s) && t !in s.pcs && Disciplined(s, Start(t, call))
    ensures OpsMove(s, StartCall(s, t, call), t)
  {
    if ReservedCall(call) { StartReservedMoves(s, t, call); }
    else if FileCall(call) { StartFileMoves(s, call); }
    else if ConnectionCall(call) { StartConnectionMoves(s, t, call); }
    else if SendCall(call) { StartSendMoves(s, t, call); }
    else { StartCloneMoves(s, t, call); }
  }

  lemma StepOps(s: Sys, t: Tid, out: Outcome)
    requires OpsInv(s) && CloneInv(s) && t in s.pcs
    ensures OpsMove(s, Step(s, t, out), t)
  {
    var pc := s.pcs[t];
    assert ClonePcInv(s, t, pc);
    if IsReserved(pc) { StepReservedMoves(s, pc, out); }
    else if IsFile(pc) { StepFileMoves(s, pc, out); }
    else if IsConnection(pc) { StepConnectionMoves(s, t, pc, out); }
    else if IsSend(pc) { StepSendMoves(s, pc, out); }
    else if IsClone(pc) { StepCloneMoves(s, pc, out); }
    else if IsOpening(pc) { StepOpeningMoves(s, pc, out); }
    else { StepUnwindingMoves(s, t, pc); }
  }

  lemma OpsPreserved(s: Sys, e: Event)
    requires OpsInv(s) && CloneInv(s) && Enabled(s, e) && Disciplined(s, e)
    ensures OpsInv(Apply(s, e))
  {
    match e
    case Start(t, call) =>
      StartOps(s, t, call);
      OpsKept(s, StartCall(s, t, call), t);
    case Advance(t, out) =>
      StepOps(s, t, out);
      OpsKept(s, Step(s, t, out), t);
  }

  // ---- clone-mode reads

  lemma StepNotCloning(s: Sys, t: Tid, out: Outcome)
    requires t in s.pcs && !OnClone(Some(s.pcs[t]))
    ensures NotCloning(s, Step(s, t, out))
  {
    var pc := s.pcs[t];
    if IsReserved(pc) { StepReservedNotCloning(s, pc, out); }
    else if IsFile(pc) { StepFileNotCloning(s, pc, out); }
    else if IsConnection(pc) { StepConnectionNotCloning(s, t, pc, out); }
    else { StepSendNotCloning(s, pc, out); }
  }

  lemma StartClones(s: Sys, t: Tid, call: Call)
    requires OpsInv(s) && CloneInv(s) && t !in s.pcs && Disciplined(s, Start(t, call))
    ensures CloneInv(Land(StartCall(s, t, call), t))
  {
    var m := StartCall(s, t, call);
    if CloneCall(call) {
      match call
      case CallArm => ArmStarts(s, t);
      case CallCancelClone => CloneAttempts.CancelStarts(s, t);
      case CallReceive => ReceiveStarts(s, t);
    } else {
      if ReservedCall(call) {
        StartReservedMoves(s, t, call);
        StartReservedNotCloning(s, t, call);
      } else if FileCall(call) {
        StartFileMoves(s, call);
        StartFileNotCloning(s, call);
      } else if ConnectionCall(call) {
        StartConnectionMoves(s, t, call);
        StartConnectionNotCloning(s, t, call);
      } else {
        StartSendMoves(s, t, call);
        StartSendNotCloning(s, t, call);
      }
      CloneKept(s, m, t);
    }
  }

  lemma StepClones(s: Sys, t: Tid, out: Outcome)
    requires OpsInv(s) && CloneInv(s) && t in s.pcs
    ensures CloneInv(Land(Step(s, t, out), t))
  {
    var pc := s.pcs[t];
    if IsClone(pc) { CloneStepClone(s, t, pc, out); }
    else if IsOpening(pc) { CloneStepOpening(s, t, pc, out); }
    else if IsUnwinding(pc) { CloneStepUnwinding(s, t, pc); }
    else {
      if IsReserved(pc) { StepReservedMoves(s, pc, out); }
      else if IsFile(pc) { StepFileMoves(s, pc, out); }
      else if IsConnection(pc) { StepConnectionMoves(s, t, pc, out); }
      else { StepSendMoves(s, pc, out); }
      StepNotCloning(s, t, out);
      CloneKept(s, Step(s, t, out), t);
    }
  }

  // ---- sending

  lemma StartSends(s: Sys, t: Tid, call: Call)
    requires OpsInv(s) && SendInv(s) && t !in s.pcs
    ensures SendInv(Land(StartCall(s, t, call), t))
  {
    if call.CallPrepareSend? { PrepareStarts(s, t); }
    else if call.CallDisconnect? { DisconnectStarts(s, t); }
    else if call.CallConfirmSend? { ConfirmStarts(s, t); }
    else if call.CallCancelTransfer? { Sends.CancelStarts(s, t); }
    else {
      if ReservedCall(call) { StartReadNotSending(s, t, call); }
      else if FileCall(call) { StartFileNotSending(s, call); }
      else if call.CallConnect? { ConnectStartNotSending(s, t); }
      else { StartCloneNotSending(s, t, call); }
      SendKept(s, StartCall(s, t, call), t);
    }
  }

  lemma StepOther(s: Sys, t: Tid, out: Outcome)
    requires t in s.pcs && !OnSend(Some(s.pcs[t])) && !s.pcs[t].CoInstall?
    ensures NotSending(s, Step(s, t, out))
  {
    var pc := s.pcs[t];
    if IsReserved(pc) { StepReadNotSending(s, pc, out); }
    else if IsFile(pc) { StepFileNotSending(s, pc, out); }
    else if IsConnection(pc) { ConnectStepNotSending(s, t, pc, out); }
    else if IsClone(pc) { StepCloneNotSending(s, pc, out); }
    else if IsOpening(pc) { OpeningNotSending(s, pc, out); }
    else { UnwindingNotSending(s, t, pc); }
  }

  lemma SendSteps(s: Sys, t: Tid, pc: Pc, out: Outcome)
    requires SendInv(s) && PcAt(s, t) == Some(pc) && IsSend(pc)
    ensures SendInv(Land(StepSend(s, pc, out), t))
  {
    if pc.CfArm? { ExecuteStarts(s, t, pc, out); }
    else if Flying(pc) { ExecuteSteps(s, t, pc, out); }
    else { SendChecks(s, t, pc, out); }
  }

  lemma StepSends(s: Sys, t: Tid, out: Outcome)
    requires OpsInv(s) && SendInv(s) && t in s.pcs
    ensures SendInv(Land(Step(s, t, out), t))
  {
    var pc := s.pcs[t];
    if IsSend(pc) { SendSteps(s, t, pc, out); }
    else if pc.PsPreparing? || pc.PsStore? { PrepareSteps(s, t, pc, out); }
    else if pc.CoInstall? { SessionInstalled(s, t, pc.session, out); }
    else {
      StepOther(s, t, out);
      SendKept(s, Step(s, t, out), t);
    }
  }

  // ---- sessions

  lemma StartSessions(s: Sys, t: Tid, call: Call)
    requires SessionInv(s) && t !in s.pcs
    ensures SessionInv(Land(StartCall(s, t, call), t))
  {
    if call.CallDisconnect? { DisconnectHandsOver(s, t); }
    else {
      if ReservedCall(call) { StartReservedKeepsSessions(s, t, call); }
      else if FileCall(call) { StartFileKeepsSessions(s, call); }
      else if call.CallConnect? { ConnectStartKeepsSessions(s, t); }
      else if SendCall(call) { StartSendKeepsSessions(s, t, call); }
      else { StartCloneKeepsSessions(s, t, call); }
      SessionsKept(s, StartCall(s, t, call), t);
    }
  }

  lemma StepSessions(s: Sys, t: Tid, out: Outcome)
    requires SessionInv(s) && t in s.pcs
    ensures SessionInv(Land(Step(s, t, out), t))
  {
    var pc := s.pcs[t];
    if pc.CoOpening? { SessionOpens(s, t, out); }
    else if pc.CoInstall? { SessionInstalls(s, t, pc.session, out); }
    else if pc.SessClose? { SessionCloses(s, t, pc.session, out); }
    else {
      if IsReserved(pc) { StepReservedKeepsSessions(s, pc, out); }
      else if IsFile(pc) { StepFileKeepsSessions(s, pc, out); }
      else if IsSend(pc) { StepSendKeepsSessions(s, pc, out); }
      else if IsClone(pc) { StepCloneKeepsSessions(s, pc, out); }
      else if IsOpening(pc) { StepOpeningKeepsSessions(s, pc, out); }
      else { StepUnwindingKeepsSessions(s, t, pc); }
      SessionsKept(s, Step(s, t, out), t);
    }
  }

  // ---- ports

  lemma StartPorts(s: Sys, t: Tid, call: Call)
    requires OpsInv(s) && CloneInv(s) && PortInv(s) && t !in s.pcs
    ensures PortInv(Land(StartCall(s, t, call), t))
  {
    if CloneCall(call) {
      match call
      case CallArm => ArmPorts(s, t);
      case CallCancelClone => CancelPorts(s, t);
      case CallReceive => ReceivePorts(s, t);
    } else {
      if ReservedCall(call) { StartReservedNotCloning(s, t, call); }
      else if FileCall(call) { StartFileNotCloning(s, call); }
      else if ConnectionCall(call) { StartConnectionNotCloning(s, t, call); }
      else { StartSendNotCloning(s, t, call); }
      PortsKept(s, StartCall(s, t, call), t);
    }
  }

  lemma StepPorts(s: Sys, t: Tid, out: Outcome)
    requires CloneInv(s) && PortInv(s) && t in s.pcs
    ensures PortInv(Land(Step(s, t, out), t))
  {
    var pc := s.pcs[t];
    if IsClone(pc) { ClonePorts(s, t, pc, out); }
    else if IsOpening(pc) { OpeningPorts(s, t, pc, out); }
    else if IsUnwinding(pc) { UnwindingPorts(s, t, pc); }
    else {
      if IsReserved(pc) { StepReservedNotCloning(s, pc, out); }
      else if IsFile(pc) { StepFileNotCloning(s, pc, out); }
      else if IsConnection(pc) { StepConnectionNotCloning(s, t, pc, out); }
      else { StepSendNotCloning(s, pc, out); }
      PortsKept(s, Step(s, t, out), t);
    }
  }

  // ---- all of it

  lemma InvPreserved(s: Sys, e: Event)
    requires Inv(s) && Enabled(s, e) && Disciplined(s, e)
    ensures Inv(Apply(s, e))
  {
    OpsPreserved(s, e);
    match e
    case Start(t, call) =>
      StartClones(s, t, call);
      StartSends(s, t, call);
      StartSessions(s, t, call);
      StartPorts(s, t, call);
    case Advance(t, out) =>
      StepClones(s, t, out);
      StepSends(s, t, out);
      StepSessions(s, t, out);
      StepPorts(s, t, out);
  }

  lemma {:induction false} InvRuns(s: Sys, es: seq<Event>)
    requires Inv(s) && Run(s, es)
    ensures Inv(After(s, es))
    decreases |es|
  {
    if es != [] {
      InvPreserved(s, es[0]);
      InvRuns(Apply(s, es[0]), es[1..]);
    }
  }

  /** What holds in every state the controller can reach. */
  lemma Reachable(es: seq<Event>)
    requires Run(INIT, es)
    ensures Inv(After(INIT, es))
  {
    InvRuns(INIT, es);
  }
}

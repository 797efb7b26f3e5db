/**
 Sending: one transfer at a time, executing the plan and on the session it
 captured, and no plan twice.
 */
module Sends {
  import opened Results
  import opened AppSections
  import opened Protocol
  import opened Reservation

  /** Calls between taking the transfer slot and giving it back. */
  predicate Transfers(pc: Pc) {
    IsSend(pc) && !pc.CtFire?
  }

  /** Calls whose plan has been handed to Execute. */
  predicate Flying(pc: Pc) {
    pc.Executing? || pc.ExFinish?
  }

  predicate OnSend(pc: Option<Pc>) {
    pc.Some? && (IsSend(pc.value) || pc.value.PsPreparing? || pc.value.PsStore?)
  }

  ghost predicate SendPcInv(s: Sys, u: Tid, pc: Pc) {
    && (Transfers(pc) ==> s.sender == Some(u))
    && (pc.CfCheck? ==> pc.found == s.app.currentPlan && (pc.conn.Some? ==> s.app.conn == pc.conn))
    && (pc.CfArm? || Flying(pc) ==> s.app.conn == Some(pc.session) && s.app.currentPlan == Some(pc.plan))
    && (Flying(pc) ==> pc.plan.id in s.executed)
    && (pc.CtFire? ==> pc.planId in s.executed)
    && (pc.PsPreparing? ==> s.app.conn == Some(pc.session) && !s.app.transfer.running)
    && (pc.PsStore? ==> s.app.conn == Some(pc.plan.session) && !s.app.transfer.running
                        && pc.plan.id < s.nextPlan && pc.plan.id !in s.executed)
  }

  ghost predicate Distinct(ids: seq<nat>) {
    forall i, j | 0 <= i < j < |ids| :: ids[i] != ids[j]
  }

  ghost predicate SendStateInv(s: Sys) {
    && (s.app.transfer.running <==> s.sender.Some?)
    && (s.sender.Some? ==> s.sender.value in s.pcs && Transfers(s.pcs[s.sender.value]))
    && (s.app.currentPlan.Some? ==>
          && s.app.conn == Some(s.app.currentPlan.value.session) && s.app.currentPlan.value.id < s.nextPlan
          && (s.app.currentPlan.value.id in s.executed ==> s.sender.Some? && Flying(s.pcs[s.sender.value])))
    && (s.app.transfer.cancel.Some? ==>
          && s.sender.Some? && Flying(s.pcs[s.sender.value])
          && s.pcs[s.sender.value].plan.id == s.app.transfer.cancel.value)
    && (forall id | id in s.executed :: id < s.nextPlan)
    && Distinct(s.executed)
  }

  ghost predicate SendInv(s: Sys) {
    && SendStateInv(s)
    && forall u | u in s.pcs :: SendPcInv(s, u, s.pcs[u])
  }

  // ---- moves that have nothing to do with sending

  ghost predicate SendFieldsKept(s: Sys, m: Moved) {
    && m.sys.pcs == s.pcs && m.sys.app.conn == s.app.conn && m.sys.app.currentPlan == s.app.currentPlan
    && m.sys.app.transfer == s.app.transfer && m.sys.sender == s.sender
    && m.sys.executed == s.executed && m.sys.nextPlan == s.nextPlan
  }

  lemma SendKept(s: Sys, m: Moved, t: Tid)
    requires SendInv(s) && SendFieldsKept(s, m) && !OnSend(PcAt(s, t)) && !OnSend(m.next)
    ensures SendInv(Land(m, t))
  {
  }

  ghost predicate NotSending(s: Sys, m: Moved) {
    SendFieldsKept(s, m) && !OnSend(m.next)
  }

  lemma StartFileNotSending(s: Sys, call: Call)
    requires FileCall(call)
    ensures NotSending(s, StartFile(s, call))
  {
  }

  lemma StepFileNotSending(s: Sys, pc: Pc, out: Outcome)
    requires IsFile(pc)
    ensures NotSending(s, StepFile(s, pc, out))
  {
  }

  lemma StartCloneNotSending(s: Sys, t: Tid, call: Call)
    requires CloneCall(call)
    ensures NotSending(s, StartClone(s, t, call))
  {
  }

  lemma StepCloneNotSending(s: Sys, pc: Pc, out: Outcome)
    requires IsClone(pc)
    ensures NotSending(s, StepClone(s, pc, out))
  {
  }

  lemma OpeningNotSending(s: Sys, pc: Pc, out: Outcome)
    requires IsOpening(pc)
    ensures NotSending(s, StepOpening(s, pc, out))
  {
  }

  lemma UnwindingNotSending(s: Sys, t: Tid, pc: Pc)
    requires IsUnwinding(pc)
    ensures NotSending(s, StepUnwinding(s, t, pc))
  {
  }

  lemma StartSettingsNotSending(s: Sys, t: Tid, call: Call)
    requires call.CallReadSettings? || call.CallWriteSetting?
    ensures NotSending(s, StartReserved(s, t, call))
  {
  }

  lemma StartReadNotSending(s: Sys, t: Tid, call: Call)
    requires ReservedCall(call) && !call.CallPrepareSend?
    ensures NotSending(s, StartReserved(s, t, call))
  {
    if !call.CallReadRadio? {
      StartSettingsNotSending(s, t, call);
    }
  }

  lemma StepReadNotSending(s: Sys, pc: Pc, out: Outcome)
    requires IsReserved(pc) && !pc.PsPreparing? && !pc.PsStore?
    ensures NotSending(s, StepReserved(s, pc, out))
  {
  }

  // ---- moves that do

  lemma PreparationBegins(s: Sys, m: Moved, t: Tid)
    requires SendInv(s) && t !in s.pcs && SendFieldsKept(s, m) && m.next.Some? && m.next.value.PsPreparing?
    requires s.app.conn == Some(m.next.value.session) && !s.app.transfer.running
    ensures SendInv(Land(m, t))
  {
  }

  lemma PrepareStarts(s: Sys, t: Tid)
    requires SendInv(s) && t !in s.pcs
    ensures SendInv(Land(StartReserved(s, t, CallPrepareSend), t))
  {
    var m := StartReserved(s, t, CallPrepareSend);
    if m.next.None? {
      SendKept(s, m, t);
    } else {
      PreparationBegins(s, m, t);
    }
  }

  lemma PrepareSteps(s: Sys, t: Tid, pc: Pc, out: Outcome)
    requires OpsInv(s) && SendInv(s) && PcAt(s, t) == Some(pc) && (pc.PsPreparing? || pc.PsStore?)
    ensures SendInv(Land(StepReserved(s, pc, out), t))
  {
  }

  /** With no plan, no transfer and no PrepareSend under way, `conn` may change. */
  lemma ConnectionChanges(s: Sys, m: Moved, t: Tid)
    requires SendInv(s) && m.sys.pcs == s.pcs && !OnSend(PcAt(s, t)) && !OnSend(m.next)
    requires m.sys.app.transfer == s.app.transfer && m.sys.sender == s.sender
    requires m.sys.executed == s.executed && m.sys.nextPlan == s.nextPlan
    requires m.sys.app.currentPlan.None?
    requires forall u | u in s.pcs :: !s.pcs[u].PsPreparing? && !s.pcs[u].PsStore?
    requires s.sender.Some? ==>
               s.app.currentPlan.None? && !s.pcs[s.sender.value].CfArm? && !Flying(s.pcs[s.sender.value])
               && (s.pcs[s.sender.value].CfCheck? ==> s.pcs[s.sender.value].conn.None?)
    ensures SendInv(Land(m, t))
  {
  }

  lemma DisconnectStarts(s: Sys, t: Tid)
    requires OpsInv(s) && SendInv(s) && t !in s.pcs
    ensures SendInv(Land(StartConnection(s, t, CallDisconnect), t))
  {
    var m := StartConnection(s, t, CallDisconnect);
    if CheckNotBusy(s.app).Some? {
      SendKept(s, m, t);
    } else {
      ConnectionChanges(s, m, t);
    }
  }

  lemma SessionInstalled(s: Sys, t: Tid, x: Session, out: Outcome)
    requires SendInv(s) && PcAt(s, t) == Some(CoInstall(x))
    ensures SendInv(Land(StepConnection(s, t, CoInstall(x), out), t))
  {
    var m := StepConnection(s, t, CoInstall(x), out);
    if s.app.conn.Some? {
      SendKept(s, m, t);
    } else {
      ConnectionChanges(s, m, t);
    }
  }

  lemma ConnectStartNotSending(s: Sys, t: Tid)
    ensures NotSending(s, StartConnection(s, t, CallConnect))
  {
  }

  lemma ConnectStepNotSending(s: Sys, t: Tid, pc: Pc, out: Outcome)
    requires pc.CoOpening? || pc.SessClose?
    ensures NotSending(s, StepConnection(s, t, pc, out))
  {
  }

  lemma ConfirmStarts(s: Sys, t: Tid)
    requires OpsInv(s) && SendInv(s) && t !in s.pcs
    ensures SendInv(Land(StartSend(s, t, CallConfirmSend), t))
  {
  }

  lemma CancelStarts(s: Sys, t: Tid)
    requires SendInv(s) && t !in s.pcs
    ensures SendInv(Land(StartSend(s, t, CallCancelTransfer), t))
  {
  }

  lemma SendChecks(s: Sys, t: Tid, pc: Pc, out: Outcome)
    requires SendInv(s) && PcAt(s, t) == Some(pc) && (pc.CfCheck? || pc.CfRelease? || pc.CtFire?)
    ensures SendInv(Land(StepSend(s, pc, out), t))
  {
  }

  lemma ExecuteStarts(s: Sys, t: Tid, pc: Pc, out: Outcome)
    requires SendInv(s) && PcAt(s, t) == Some(pc) && pc.CfArm?
    ensures SendInv(Land(StepSend(s, pc, out), t))
  {
  }

  lemma ExecuteSteps(s: Sys, t: Tid, pc: Pc, out: Outcome)
    requires SendInv(s) && PcAt(s, t) == Some(pc) && Flying(pc)
    ensures SendInv(Land(StepSend(s, pc, out), t))
  {
  }
}

/**
 The operation reservation (`opBusy`): every reservation taken is released once,
 by its own taker, and no call owes a release it does not hold.
 */
module Reservation {
  import opened Results
  import opened AppSections
  import opened Protocol

  /** The reservation a call will release before it returns. */
  function Owes(pc: Pc): Option<nat> {
    if IsReserved(pc) then Some(pc.res) else if IsClone(pc) then Some(pc.c) else None
  }

  function PcAt(s: Sys, t: Tid): Option<Pc> {
    if t in s.pcs then Some(s.pcs[t]) else None
  }

  /** The record of `taken` reservations, the last of them still open or not. */
  function History(taken: nat, open: bool): seq<OpEvent> {
    if taken == 0 then []
    else History(taken - 1, false) + [Reserved(taken - 1)] + if open then [] else [Released(taken - 1)]
  }

  ghost predicate OpsInv(s: Sys) {
    && s.log == History(s.taken, s.holder.Some?)
    && (s.app.opBusy.Some? <==> s.holder.Some?)
    && (s.holder.Some? ==> s.taken > 0)
    && (forall u | u in s.pcs :: Owes(s.pcs[u]).Some? ==>
                                   s.holder == Some(ByThread(u)) && Owes(s.pcs[u]).value == s.taken - 1)
    && (s.holder.Some? && s.holder.value.ByThread? ==>
          s.holder.value.t in s.pcs && Owes(s.pcs[s.holder.value.t]).Some?)
  }

  // ---- how one move of one call can change the reservation

  function OwesNext(next: Option<Pc>): Option<nat> {
    if next.Some? then Owes(next.value) else None
  }

  ghost predicate KeepsReservation(s: Sys, m: Moved, at: Option<Pc>) {
    && m.sys.pcs == s.pcs && m.sys.log == s.log && m.sys.taken == s.taken && m.sys.holder == s.holder
    && m.sys.app.opBusy == s.app.opBusy && OwesNext(m.next) == OwesNext(at)
  }

  ghost predicate TakesReservation(s: Sys, m: Moved, t: Tid) {
    && m.sys.pcs == s.pcs && s.app.opBusy.None? && m.sys.app.opBusy.Some?
    && m.sys.taken == s.taken + 1 && m.sys.log == s.log + [Reserved(s.taken)]
    && ((m.sys.holder == Some(ByThread(t)) && OwesNext(m.next) == Some(s.taken))
        || (m.sys.holder == Some(ByAttempt(s.taken)) && OwesNext(m.next) == None))
  }

  /** What an armed or arming attempt answered for passes to the call `t`. */
  ghost predicate InheritsReservation(s: Sys, m: Moved, t: Tid) {
    && m.sys.pcs == s.pcs && s.holder.Some? && s.holder.value.ByAttempt? && m.sys.holder == Some(ByThread(t))
    && m.sys.log == s.log && m.sys.taken == s.taken && m.sys.app.opBusy == s.app.opBusy
    && s.taken > 0 && OwesNext(m.next) == Some(s.taken - 1)
  }

  ghost predicate ReleasesReservation(s: Sys, m: Moved, at: Option<Pc>) {
    && m.sys.pcs == s.pcs && OwesNext(at).Some? && OwesNext(m.next).None?
    && m.sys.holder.None? && m.sys.app.opBusy.None?
    && m.sys.taken == s.taken && m.sys.log == s.log + [Released(OwesNext(at).value)]
  }

  ghost predicate OpsMove(s: Sys, m: Moved, t: Tid) {
    || KeepsReservation(s, m, PcAt(s, t))
    || (TakesReservation(s, m, t) && t !in s.pcs)
    || InheritsReservation(s, m, t)
    || ReleasesReservation(s, m, PcAt(s, t))
  }

  lemma OpsKept(s: Sys, m: Moved, t: Tid)
    requires OpsInv(s) && OpsMove(s, m, t)
    ensures OpsInv(Land(m, t))
  {
  }

  // ---- which of them each group of steps makes

  lemma StartReservedMoves(s: Sys, t: Tid, call: Call)
    requires ReservedCall(call)
    ensures || KeepsReservation(s, StartReserved(s, t, call), None)
            || (TakesReservation(s, StartReserved(s, t, call), t)
                && StartReserved(s, t, call).sys.holder == Some(ByThread(t)))
  {
  }

  lemma StartFileMoves(s: Sys, call: Call)
    requires FileCall(call)
    ensures KeepsReservation(s, StartFile(s, call), None)
  {
  }

  lemma StartConnectionMoves(s: Sys, t: Tid, call: Call)
    requires ConnectionCall(call)
    ensures KeepsReservation(s, StartConnection(s, t, call), None)
  {
  }

  lemma StartSendMoves(s: Sys, t: Tid, call: Call)
    requires SendCall(call)
    ensures KeepsReservation(s, StartSend(s, t, call), None)
  {
  }

  lemma StartCloneMoves(s: Sys, t: Tid, call: Call)
    requires t !in s.pcs && CloneCall(call)
    requires !call.CallArm? && s.app.cloneState.Some? ==>
               s.holder == Some(ByAttempt(s.app.cloneState.value)) && s.app.cloneState.value == s.taken - 1
    ensures OpsMove(s, StartClone(s, t, call), t)
  {
  }

  lemma StepReservedMoves(s: Sys, pc: Pc, out: Outcome)
    requires IsReserved(pc)
    ensures if pc.OpRelease? then ReleasesReservation(s, StepReserved(s, pc, out), Some(pc))
            else KeepsReservation(s, StepReserved(s, pc, out), Some(pc))
  {
  }

  lemma StepFileMoves(s: Sys, pc: Pc, out: Outcome)
    requires IsFile(pc)
    ensures KeepsReservation(s, StepFile(s, pc, out), Some(pc))
  {
  }

  lemma StepConnectionMoves(s: Sys, t: Tid, pc: Pc, out: Outcome)
    requires IsConnection(pc)
    ensures KeepsReservation(s, StepConnection(s, t, pc, out), Some(pc))
  {
  }

  lemma ChecksMove(s: Sys, pc: Pc, out: Outcome)
    requires pc.CfCheck? || pc.CfRelease? || pc.CtFire?
    ensures KeepsReservation(s, StepSend(s, pc, out), Some(pc))
  {
  }

  lemma StepSendMoves(s: Sys, pc: Pc, out: Outcome)
    requires IsSend(pc)
    ensures KeepsReservation(s, StepSend(s, pc, out), Some(pc))
  {
    if pc.CfCheck? || pc.CfRelease? || pc.CtFire? {
      ChecksMove(s, pc, out);
    }
  }

  lemma StepCloneMoves(s: Sys, pc: Pc, out: Outcome)
    requires IsClone(pc)
    ensures KeepsReservation(s, StepClone(s, pc, out), Some(pc))
  {
  }

  lemma PublishMoves(s: Sys, pc: Pc, out: Outcome)
    requires pc.ArPublish?
    ensures KeepsReservation(s, StepOpening(s, pc, out), Some(pc))
  {
  }

  lemma ReceptionMoves(s: Sys, pc: Pc, out: Outcome)
    requires pc.ArReception?
    ensures KeepsReservation(s, StepOpening(s, pc, out), Some(pc))
  {
  }

  lemma StepOpeningMoves(s: Sys, pc: Pc, out: Outcome)
    requires IsOpening(pc)
    ensures KeepsReservation(s, StepOpening(s, pc, out), Some(pc))
  {
    if pc.ArPublish? {
      PublishMoves(s, pc, out);
    } else if pc.ArReception? {
      ReceptionMoves(s, pc, out);
    }
  }

  lemma StepUnwindingMoves(s: Sys, t: Tid, pc: Pc)
    requires PcAt(s, t) == Some(pc) && IsUnwinding(pc)
    requires pc.ArAbandon? && pc.c in s.attempts && !s.attempts[pc.c].read.cancelled ==>
               s.holder == Some(ByAttempt(pc.c)) && pc.c == s.taken - 1
    ensures OpsMove(s, StepUnwinding(s, t, pc), t)
  {
  }
}

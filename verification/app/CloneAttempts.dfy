/**
 Clone-mode reads: who answers for an attempt while ArmCloneRead, CancelCloneRead
 and ReceiveCloneImage interleave.
 */
module CloneAttempts {
  import opened Results
  import opened AppSections
  import opened Protocol
  import opened Reservation

  /** A call still arming attempt `c`; while nobody has cancelled it, the attempt holds the reservation. */
  ghost predicate ArmingInv(s: Sys, t: Tid, c: nat) {
    && c in s.attempts && s.attempts[c].armer == t
    && (!s.attempts[c].read.cancelled ==>
          s.holder == Some(ByAttempt(c)) && s.app.cloneState == Some(c) && !s.attempts[c].read.armed)
  }

  ghost predicate ClonePcInv(s: Sys, t: Tid, pc: Pc) {
    if IsOpening(pc) || pc.ArFailed? || pc.ArAbandon? then
      && ArmingInv(s, t, pc.c)
      && (pc.ArOpening? || pc.ArPublish? ==> s.attempts[pc.c].read.port.None?)
      && (pc.ArArming? || pc.ArReception? || pc.ArFailed? ==> s.attempts[pc.c].read.port == Some(pc.port))
    else if pc.ArClose? then
      pc.c in s.attempts && s.attempts[pc.c].armer == t && s.attempts[pc.c].read.cancelled
    else if pc.CnClose? then
      pc.c in s.attempts && s.attempts[pc.c].read.cancelled && s.attempts[pc.c].read.port == pc.handle
    else if IsClone(pc) then
      && pc.c in s.attempts && s.attempts[pc.c].read.armed && !s.attempts[pc.c].read.cancelled
      && s.app.cloneState == Some(pc.c)
    else
      true
  }

  ghost predicate CloneStateInv(s: Sys) {
    && (forall c | c in s.attempts :: c < s.taken && (s.attempts[c].read.armed ==> s.attempts[c].read.port.Some?))
    && (s.holder.Some? && s.holder.value.ByAttempt? ==> s.app.cloneState == Some(s.holder.value.c))
    && (s.app.cloneState.Some? ==>
          var c := s.app.cloneState.value;
          && c in s.attempts && c == s.taken - 1 && !s.attempts[c].read.cancelled && s.holder.Some?
          && (s.attempts[c].read.armed || (s.attempts[c].armer in s.pcs && Arming(s.pcs[s.attempts[c].armer], c)))
          && (s.holder.value.ByThread? ==> s.holder.value.t in s.pcs && Receiving(s.pcs[s.holder.value.t], c)))
  }

  ghost predicate CloneInv(s: Sys) {
    && CloneStateInv(s)
    && forall u | u in s.pcs :: ClonePcInv(s, u, s.pcs[u])
  }

  predicate OnClone(pc: Option<Pc>) {
    pc.Some? && (IsOpening(pc.value) || IsUnwinding(pc.value) || IsClone(pc.value))
  }

  lemma CloningStep(s: Sys, t: Tid, out: Outcome)
    requires t in s.pcs && OnClone(Some(s.pcs[t]))
    ensures var pc := s.pcs[t];
            Step(s, t, out) == if IsClone(pc) then StepClone(s, pc, out)
                               else if IsOpening(pc) then StepOpening(s, pc, out) else StepUnwinding(s, t, pc)
  {
  }

  /** The parts of the state that clone-mode reads rest on, untouched. */
  ghost predicate AttemptsKept(s: Sys, m: Moved) {
    m.sys.pcs == s.pcs && m.sys.attempts == s.attempts && m.sys.app.cloneState == s.app.cloneState
  }

  lemma HolderKept(s: Sys, m: Moved, t: Tid)
    requires CloneInv(s) && !OnClone(PcAt(s, t)) && !OnClone(m.next) && AttemptsKept(s, m)
    requires m.sys.taken == s.taken && m.sys.holder == s.holder
    ensures CloneInv(Land(m, t))
  {
    forall u | u in Land(m, t).pcs
      ensures ClonePcInv(Land(m, t), u, Land(m, t).pcs[u])
    {
      if u != t {
        assert ClonePcInv(s, u, s.pcs[u]);
      }
    }
  }

  /** While nobody holds the reservation there is no attempt to answer for, before and after. */
  lemma HolderChanged(s: Sys, m: Moved, t: Tid)
    requires CloneInv(s) && !OnClone(PcAt(s, t)) && !OnClone(m.next) && AttemptsKept(s, m)
    requires m.sys.taken >= s.taken && s.app.cloneState.None?
    requires s.holder.Some? ==> s.holder.value.ByThread?
    requires m.sys.holder.Some? ==> m.sys.holder.value.ByThread?
    ensures CloneInv(Land(m, t))
  {
    forall u | u in Land(m, t).pcs
      ensures ClonePcInv(Land(m, t), u, Land(m, t).pcs[u])
    {
      if u != t {
        assert ClonePcInv(s, u, s.pcs[u]);
      }
    }
  }

  lemma ReleaserIsNotReceiving(s: Sys, t: Tid)
    requires OpsInv(s) && CloneInv(s) && t in s.pcs && !OnClone(PcAt(s, t)) && Owes(s.pcs[t]).Some?
    ensures s.app.cloneState.None? && s.holder == Some(ByThread(t))
  {
  }

  /** A move of a call that has nothing to do with clone-mode reads. */
  lemma CloneKept(s: Sys, m: Moved, t: Tid)
    requires OpsInv(s) && CloneInv(s) && !OnClone(PcAt(s, t)) && !OnClone(m.next) && AttemptsKept(s, m)
    requires || KeepsReservation(s, m, PcAt(s, t))
             || (TakesReservation(s, m, t) && m.sys.holder == Some(ByThread(t)) && t !in s.pcs)
             || ReleasesReservation(s, m, PcAt(s, t))
    ensures CloneInv(Land(m, t))
  {
    if m.sys.taken == s.taken && m.sys.holder == s.holder {
      HolderKept(s, m, t);
    } else {
      if m.sys.holder.None? {
        ReleaserIsNotReceiving(s, t);
      }
      HolderChanged(s, m, t);
    }
  }

  /** A move within a clone-mode call that only changes where the call is. */
  lemma CloneStepped(s: Sys, m: Moved, t: Tid)
    requires OpsInv(s) && CloneInv(s) && t in s.pcs && m.sys.pcs == s.pcs
    requires m.sys.attempts == s.attempts && m.sys.app.cloneState == s.app.cloneState
    requires m.sys.taken == s.taken && m.sys.holder == s.holder
    requires IsClone(s.pcs[t]) && !s.pcs[t].CnClose? ==> m.next.Some? && Receiving(m.next.value, s.pcs[t].c)
    requires IsOpening(s.pcs[t]) || s.pcs[t].ArFailed? || s.pcs[t].ArAbandon? ==>
               || (m.next.Some? && Arming(m.next.value, s.pcs[t].c))
               || (s.pcs[t].c in s.attempts && s.attempts[s.pcs[t].c].read.cancelled)
    requires m.next.Some? ==> ClonePcInv(s, t, m.next.value)
    ensures CloneInv(Land(m, t))
  {
  }

  lemma AttemptAdded(s: Sys, m: Moved, t: Tid)
    requires CloneInv(s) && t !in s.pcs && s.app.cloneState.None? && s.holder.None?
    requires m.sys.pcs == s.pcs && m.sys.taken == s.taken + 1 && m.sys.holder == Some(ByAttempt(s.taken))
    requires m.sys.app.cloneState == Some(s.taken) && m.next == Some(ArOpening(s.taken))
    requires m.sys.attempts == s.attempts[s.taken := Attempt(CloneRead(None, false, false), t)]
    ensures CloneInv(Land(m, t))
  {
    forall u | u in Land(m, t).pcs
      ensures ClonePcInv(Land(m, t), u, Land(m, t).pcs[u])
    {
      if u != t {
        assert ClonePcInv(s, u, s.pcs[u]);
      }
    }
  }

  lemma ArmStarts(s: Sys, t: Tid)
    requires OpsInv(s) && CloneInv(s) && t !in s.pcs
    ensures CloneInv(Land(StartClone(s, t, CallArm), t))
  {
    var m := StartClone(s, t, CallArm);
    if m.next.None? {
      HolderKept(s, m, t);
    } else {
      AttemptAdded(s, m, t);
    }
  }

  lemma AttemptCancelled(s: Sys, m: Moved, t: Tid, c: nat)
    requires OpsInv(s) && CloneInv(s) && t !in s.pcs && s.app.cloneState == Some(c) && s.holder == Some(ByAttempt(c))
    requires m.sys.pcs == s.pcs && m.sys.taken == s.taken && m.sys.holder == Some(ByThread(t)) && c in s.attempts
    requires m.sys.app.cloneState == None && m.next == Some(CnClose(c, s.attempts[c].read.port))
    requires m.sys.attempts == s.attempts[c := Attempt(s.attempts[c].read.(cancelled := true), s.attempts[c].armer)]
    ensures CloneInv(Land(m, t))
  {
    forall u | u in Land(m, t).pcs
      ensures ClonePcInv(Land(m, t), u, Land(m, t).pcs[u])
    {
      if u != t {
        assert ClonePcInv(s, u, s.pcs[u]);
        assert Owes(s.pcs[u]).None?;
      }
    }
  }

  lemma CancelStarts(s: Sys, t: Tid)
    requires OpsInv(s) && CloneInv(s) && t !in s.pcs && Disciplined(s, Start(t, CallCancelClone))
    ensures CloneInv(Land(StartClone(s, t, CallCancelClone), t))
  {
    var m := StartClone(s, t, CallCancelClone);
    if s.app.cloneState.None? {
      HolderKept(s, m, t);
    } else {
      AttemptCancelled(s, m, t, s.app.cloneState.value);
    }
  }

  lemma ReceiveStarts(s: Sys, t: Tid)
    requires OpsInv(s) && CloneInv(s) && t !in s.pcs && Disciplined(s, Start(t, CallReceive))
    ensures CloneInv(Land(StartClone(s, t, CallReceive), t))
  {
  }

  lemma PortRecorded(s: Sys, m: Moved, t: Tid, c: nat, p: Port)
    requires CloneInv(s) && PcAt(s, t) == Some(ArPublish(c, p)) && c in s.attempts && !s.attempts[c].read.cancelled
    requires m.sys.pcs == s.pcs && m.sys.taken == s.taken && m.sys.holder == s.holder
    requires m.sys.app.cloneState == s.app.cloneState && m.next == Some(ArArming(c, p))
    requires m.sys.attempts == s.attempts[c := Attempt(s.attempts[c].read.(port := Some(p)), s.attempts[c].armer)]
    ensures CloneInv(Land(m, t))
  {
    assert ClonePcInv(s, t, s.pcs[t]);
    forall u | u in Land(m, t).pcs
      ensures ClonePcInv(Land(m, t), u, Land(m, t).pcs[u])
    {
      if u != t {
        assert ClonePcInv(s, u, s.pcs[u]);
      }
    }
  }

  lemma PortPublished(s: Sys, t: Tid, c: nat, p: Port, out: Outcome)
    requires OpsInv(s) && CloneInv(s) && PcAt(s, t) == Some(ArPublish(c, p))
    ensures CloneInv(Land(StepOpening(s, ArPublish(c, p), out), t))
  {
    var m := StepOpening(s, ArPublish(c, p), out);
    assert ClonePcInv(s, t, s.pcs[t]);
    if s.attempts[c].read.cancelled {
      CloneStepped(s, m, t);
    } else {
      PortRecorded(s, m, t, c, p);
    }
  }

  lemma AttemptArmed(s: Sys, m: Moved, t: Tid, c: nat, p: Port)
    requires CloneInv(s) && PcAt(s, t) == Some(ArReception(c, p)) && c in s.attempts && !s.attempts[c].read.cancelled
    requires m.sys.pcs == s.pcs && m.sys.taken == s.taken && m.sys.holder == s.holder
    requires m.sys.app.cloneState == s.app.cloneState && m.next == None
    requires m.sys.attempts == s.attempts[c := Attempt(s.attempts[c].read.(armed := true), s.attempts[c].armer)]
    ensures CloneInv(Land(m, t))
  {
    assert ClonePcInv(s, t, s.pcs[t]);
    forall u | u in Land(m, t).pcs
      ensures ClonePcInv(Land(m, t), u, Land(m, t).pcs[u])
    {
      assert ClonePcInv(s, u, s.pcs[u]);
    }
  }

  lemma ReceptionPublished(s: Sys, t: Tid, c: nat, p: Port, out: Outcome)
    requires OpsInv(s) && CloneInv(s) && PcAt(s, t) == Some(ArReception(c, p))
    ensures CloneInv(Land(StepOpening(s, ArReception(c, p), out), t))
  {
    var m := StepOpening(s, ArReception(c, p), out);
    assert ClonePcInv(s, t, s.pcs[t]);
    if s.attempts[c].read.cancelled {
      CloneStepped(s, m, t);
    } else {
      AttemptArmed(s, m, t, c, p);
    }
  }

  /** The attempt goes, and the call that armed it inherits its reservation. */
  lemma AttemptDropped(s: Sys, m: Moved, t: Tid, c: nat)
    requires OpsInv(s) && CloneInv(s) && PcAt(s, t) == Some(ArAbandon(c)) && !s.attempts[c].read.cancelled
    requires m.sys.pcs == s.pcs && m.sys.taken == s.taken && m.sys.attempts == s.attempts
    requires m.sys.holder == Some(ByThread(t)) && m.sys.app.cloneState == None && m.next == Some(OpRelease(c))
    ensures CloneInv(Land(m, t))
  {
    assert ClonePcInv(s, t, s.pcs[t]);
    forall u | u in Land(m, t).pcs
      ensures ClonePcInv(Land(m, t), u, Land(m, t).pcs[u])
    {
      if u != t {
        assert ClonePcInv(s, u, s.pcs[u]);
        assert Owes(s.pcs[u]).None?;
      }
    }
  }

  lemma ArmAbandoned(s: Sys, t: Tid, c: nat)
    requires OpsInv(s) && CloneInv(s) && PcAt(s, t) == Some(ArAbandon(c))
    ensures CloneInv(Land(StepUnwinding(s, t, ArAbandon(c)), t))
  {
    var m := StepUnwinding(s, t, ArAbandon(c));
    assert ClonePcInv(s, t, s.pcs[t]);
    if s.attempts[c].read.cancelled {
      CloneStepped(s, m, t);
    } else {
      AttemptDropped(s, m, t, c);
    }
  }

  lemma ReceiveCleared(s: Sys, t: Tid, c: nat, out: Outcome)
    requires OpsInv(s) && CloneInv(s) && PcAt(s, t) == Some(RcClear(c))
    ensures CloneInv(Land(StepClone(s, RcClear(c), out), t))
  {
  }

  lemma CloneStepOpening(s: Sys, t: Tid, pc: Pc, out: Outcome)
    requires OpsInv(s) && CloneInv(s) && PcAt(s, t) == Some(pc) && IsOpening(pc)
    ensures CloneInv(Land(StepOpening(s, pc, out), t))
  {
    match pc
    case ArPublish(c, p) => PortPublished(s, t, c, p, out);
    case ArReception(c, p) => ReceptionPublished(s, t, c, p, out);
    case ArOpening(c) => CloneStepped(s, StepOpening(s, pc, out), t);
    case ArArming(c, p) => CloneStepped(s, StepOpening(s, pc, out), t);
  }

  lemma CloneStepUnwinding(s: Sys, t: Tid, pc: Pc)
    requires OpsInv(s) && CloneInv(s) && PcAt(s, t) == Some(pc) && IsUnwinding(pc)
    ensures CloneInv(Land(StepUnwinding(s, t, pc), t))
  {
    match pc
    case ArAbandon(c) => ArmAbandoned(s, t, c);
    case ArFailed(c, p) => CloneStepped(s, StepUnwinding(s, t, pc), t);
    case ArClose(c, p) => CloneStepped(s, StepUnwinding(s, t, pc), t);
  }

  lemma CloneStepClone(s: Sys, t: Tid, pc: Pc, out: Outcome)
    requires OpsInv(s) && CloneInv(s) && PcAt(s, t) == Some(pc) && IsClone(pc)
    ensures CloneInv(Land(StepClone(s, pc, out), t))
  {
    if pc.RcClear? {
      ReceiveCleared(s, t, pc.c, out);
    } else {
      CloneStepped(s, StepClone(s, pc, out), t);
    }
  }
}

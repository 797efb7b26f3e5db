/**
 The other half of closing ports: nobody closes the port of a clone-mode read that
 is still armed or being armed.
 */
module OpenPorts {
  import opened Results
  import opened AppSections
  import opened Protocol
  import opened Reservation
  import opened CloneAttempts
  import opened Resources
  import opened Interleavings

  /** A call that has closed the attempt's port and is about to clear the attempt. */
  ghost predicate Ending(s: Sys, c: nat) {
    exists u | u in s.pcs :: s.pcs[u] == ArAbandon(c) || s.pcs[u] == RcClear(c)
  }

  ghost predicate LivePortOpen(s: Sys) {
    s.app.cloneState.Some? && s.app.cloneState.value in s.attempts ==>
      var c := s.app.cloneState.value;
      s.attempts[c].read.port.Some? && s.attempts[c].read.port.value in s.closedPorts ==> Ending(s, c)
  }

  ghost predicate OpenInv(s: Sys) {
    && (forall p | p in s.closedPorts :: p in s.ports)
    && (forall u | u in s.pcs && s.pcs[u].ArPublish? :: s.pcs[u].port !in s.closedPorts)
    && LivePortOpen(s)
  }

  /** Someone else's ending goes on. */
  lemma EndingStays(s: Sys, m: Moved, t: Tid, c: nat)
    requires Ending(s, c) && m.sys.pcs == s.pcs && (t in s.pcs ==> s.pcs[t] != ArAbandon(c) && s.pcs[t] != RcClear(c))
    ensures Ending(Land(m, t), c)
  {
    var u :| u in s.pcs && (s.pcs[u] == ArAbandon(c) || s.pcs[u] == RcClear(c));
    assert Land(m, t).pcs[u] == s.pcs[u];
  }

  /** A move that neither opens nor closes a port nor changes which attempt is live, or its port. */
  lemma OpenKept(s: Sys, m: Moved, t: Tid)
    requires OpenInv(s) && m.sys.pcs == s.pcs && m.sys.ports == s.ports && m.sys.closedPorts == s.closedPorts
    requires m.next.Some? ==> !m.next.value.ArPublish?
    requires t in s.pcs ==> !s.pcs[t].ArAbandon? && !s.pcs[t].RcClear?
    requires m.sys.app.cloneState.Some? && m.sys.app.cloneState.value in m.sys.attempts ==>
               var c := m.sys.app.cloneState.value;
               || m.sys.attempts[c].read.port.None?
               || m.sys.attempts[c].read.port.value !in s.closedPorts
               || (s.app.cloneState == Some(c) && c in s.attempts
                   && m.sys.attempts[c].read.port == s.attempts[c].read.port)
    ensures OpenInv(Land(m, t))
  {
    if m.sys.app.cloneState.Some? && Ending(s, m.sys.app.cloneState.value) {
      EndingStays(s, m, t, m.sys.app.cloneState.value);
    }
  }

  /** A move that closes port `p` of attempt `k`, which is over or ends with this move. */
  lemma OpenClosed(s: Sys, m: Moved, t: Tid, p: Port, k: nat)
    requires OpenInv(s) && PortInv(s) && m.sys.pcs == s.pcs && m.sys.ports == s.ports && m.sys.attempts == s.attempts
    requires m.sys.closedPorts == s.closedPorts + {p} && m.sys.app.cloneState == s.app.cloneState
    requires p in s.ports && s.ports[p] == k
    requires m.next.Some? ==> !m.next.value.ArPublish?
    requires t in s.pcs && !s.pcs[t].ArAbandon? && !s.pcs[t].RcClear?
    requires forall u | u in s.pcs && u != t && s.pcs[u].ArPublish? :: s.pcs[u].port != p
    requires s.app.cloneState != Some(k) || m.next == Some(ArAbandon(k)) || m.next == Some(RcClear(k))
    ensures OpenInv(Land(m, t))
  {
    var s' := Land(m, t);
    if s.app.cloneState.Some? && s.app.cloneState.value in s.attempts {
      var c := s.app.cloneState.value;
      if c == k {
        assert s'.pcs[t] == ArAbandon(k) || s'.pcs[t] == RcClear(k);
      } else if s.attempts[c].read.port.Some? && s.attempts[c].read.port.value in s'.closedPorts {
        EndingStays(s, m, t, c);
      }
    }
  }

  /** A move that leaves no attempt live, or another one than `k`, whose call ends. */
  lemma OpenGone(s: Sys, m: Moved, t: Tid, k: nat)
    requires OpenInv(s) && m.sys.pcs == s.pcs && m.sys.ports == s.ports && m.sys.closedPorts == s.closedPorts
    requires m.sys.attempts == s.attempts && (m.next.Some? ==> !m.next.value.ArPublish?)
    requires t in s.pcs && (s.pcs[t] == ArAbandon(k) || s.pcs[t] == RcClear(k))
    requires m.sys.app.cloneState.None? || (m.sys.app.cloneState == s.app.cloneState && s.app.cloneState != Some(k))
    ensures OpenInv(Land(m, t))
  {
    if m.sys.app.cloneState.Some? && Ending(s, m.sys.app.cloneState.value) {
      EndingStays(s, m, t, m.sys.app.cloneState.value);
    }
  }

  /** No call but the attempt's own arming one is about to publish a port of it. */
  lemma OthersPublishOthers(s: Sys, t: Tid, p: Port, k: nat)
    requires CloneInv(s) && PortInv(s) && p in s.ports && s.ports[p] == k && k in s.attempts
    requires s.attempts[k].armer == t || s.attempts[k].read.port.Some?
    ensures forall u | u in s.pcs && u != t && s.pcs[u].ArPublish? :: s.pcs[u].port != p
  {
    forall u | u in s.pcs && u != t && s.pcs[u].ArPublish?
      ensures s.pcs[u].port != p
    {
      assert ClonePcInv(s, u, s.pcs[u]) && PortPcInv(s, s.pcs[u]);
    }
  }

  lemma OpenStarts(s: Sys, t: Tid, call: Call)
    requires OpsInv(s) && CloneInv(s) && OpenInv(s) && t !in s.pcs && CloneCall(call)
    ensures OpenInv(Land(StartClone(s, t, call), t))
  {
    OpenKept(s, StartClone(s, t, call), t);
  }

  lemma PortOpensUnclosed(s: Sys, t: Tid, c: nat, out: Outcome)
    requires PortInv(s) && OpenInv(s) && PcAt(s, t) == Some(ArOpening(c))
    ensures OpenInv(Land(StepOpening(s, ArOpening(c), out), t))
  {
    var m := StepOpening(s, ArOpening(c), out);
    if s.app.cloneState.Some? && Ending(s, s.app.cloneState.value) {
      EndingStays(s, m, t, s.app.cloneState.value);
    }
  }

  lemma OpenStepOpening(s: Sys, t: Tid, pc: Pc, out: Outcome)
    requires CloneInv(s) && PortInv(s) && OpenInv(s) && PcAt(s, t) == Some(pc) && IsOpening(pc)
    ensures OpenInv(Land(StepOpening(s, pc, out), t))
  {
    if pc.ArOpening? {
      PortOpensUnclosed(s, t, pc.c, out);
    } else {
      OpenKept(s, StepOpening(s, pc, out), t);
    }
  }

  lemma OpenStepUnwinding(s: Sys, t: Tid, pc: Pc)
    requires CloneInv(s) && PortInv(s) && OpenInv(s) && PcAt(s, t) == Some(pc) && IsUnwinding(pc)
    ensures OpenInv(Land(StepUnwinding(s, t, pc), t))
  {
    var m := StepUnwinding(s, t, pc);
    assert ClonePcInv(s, t, pc) && PortPcInv(s, pc);
    if pc.ArAbandon? {
      OpenGone(s, m, t, pc.c);
    } else {
      OthersPublishOthers(s, t, pc.port, pc.c);
      OpenClosed(s, m, t, pc.port, pc.c);
    }
  }

  lemma CancelCloses(s: Sys, t: Tid, c: nat, handle: Option<Port>, out: Outcome)
    requires CloneInv(s) && PortInv(s) && OpenInv(s) && PcAt(s, t) == Some(CnClose(c, handle))
    ensures OpenInv(Land(StepClone(s, CnClose(c, handle), out), t))
  {
    var m := StepClone(s, CnClose(c, handle), out);
    assert ClonePcInv(s, t, s.pcs[t]);
    if handle.Some? {
      OthersPublishOthers(s, t, handle.value, c);
      OpenClosed(s, m, t, handle.value, c);
    } else {
      OpenKept(s, m, t);
    }
  }

  lemma ReceiveCloses(s: Sys, t: Tid, c: nat, out: Outcome)
    requires CloneInv(s) && PortInv(s) && OpenInv(s) && PcAt(s, t) == Some(RcClose(c))
    ensures OpenInv(Land(StepClone(s, RcClose(c), out), t))
  {
    var m := StepClone(s, RcClose(c), out);
    assert ClonePcInv(s, t, s.pcs[t]);
    var p := s.attempts[c].read.port.value;
    OthersPublishOthers(s, t, p, c);
    OpenClosed(s, m, t, p, c);
  }

  lemma OpenStepClone(s: Sys, t: Tid, pc: Pc, out: Outcome)
    requires CloneInv(s) && PortInv(s) && OpenInv(s) && PcAt(s, t) == Some(pc) && IsClone(pc)
    ensures OpenInv(Land(StepClone(s, pc, out), t))
  {
    if pc.CnClose? {
      CancelCloses(s, t, pc.c, pc.handle, out);
    } else if pc.RcClose? {
      ReceiveCloses(s, t, pc.c, out);
    } else if pc.RcClear? {
      OpenGone(s, StepClone(s, pc, out), t, pc.c);
    } else {
      OpenKept(s, StepClone(s, pc, out), t);
    }
  }

  lemma OpenStart(s: Sys, t: Tid, call: Call)
    requires OpsInv(s) && CloneInv(s) && OpenInv(s) && t !in s.pcs
    ensures OpenInv(Land(StartCall(s, t, call), t))
  {
    if CloneCall(call) {
      OpenStarts(s, t, call);
    } else {
      if ReservedCall(call) { StartReservedNotCloning(s, t, call); }
      else if FileCall(call) { StartFileNotCloning(s, call); }
      else if ConnectionCall(call) { StartConnectionNotCloning(s, t, call); }
      else { StartSendNotCloning(s, t, call); }
      OpenKept(s, StartCall(s, t, call), t);
    }
  }

  lemma OpenStepOther(s: Sys, t: Tid, out: Outcome)
    requires OpenInv(s) && t in s.pcs && !OnClone(Some(s.pcs[t]))
    ensures OpenInv(Land(Step(s, t, out), t))
  {
    StepNotCloning(s, t, out);
    OpenKept(s, Step(s, t, out), t);
  }

  lemma OpenStepCloning(s: Sys, t: Tid, pc: Pc, out: Outcome)
    requires CloneInv(s) && PortInv(s) && OpenInv(s) && PcAt(s, t) == Some(pc) && OnClone(Some(pc))
    ensures IsClone(pc) ==> OpenInv(Land(StepClone(s, pc, out), t))
    ensures IsOpening(pc) ==> OpenInv(Land(StepOpening(s, pc, out), t))
    ensures IsUnwinding(pc) ==> OpenInv(Land(StepUnwinding(s, t, pc), t))
  {
    if IsClone(pc) { OpenStepClone(s, t, pc, out); }
    else if IsOpening(pc) { OpenStepOpening(s, t, pc, out); }
    else { OpenStepUnwinding(s, t, pc); }
  }

  lemma OpenStep(s: Sys, t: Tid, out: Outcome)
    requires CloneInv(s) && PortInv(s) && OpenInv(s) && t in s.pcs
    ensures OpenInv(Land(Step(s, t, out), t))
  {
    if OnClone(Some(s.pcs[t])) {
      CloningStep(s, t, out);
      OpenStepCloning(s, t, s.pcs[t], out);
    } else {
      OpenStepOther(s, t, out);
    }
  }

  lemma {:induction false} OpenRuns(s: Sys, es: seq<Event>)
    requires Inv(s) && OpenInv(s) && Run(s, es)
    ensures OpenInv(After(s, es))
    decreases |es|
  {
    if es != [] {
      match es[0] {
        case Start(t, call) => OpenStart(s, t, call);
        case Advance(t, out) => OpenStep(s, t, out);
      }
      InvPreserved(s, es[0]);
      OpenRuns(Apply(s, es[0]), es[1..]);
    }
  }

  lemma LiveArmedIsOpen(s: Sys, c: nat)
    requires CloneInv(s) && LivePortOpen(s) && s.app.cloneState == Some(c)
    requires c in s.attempts && s.attempts[c].read.armed && forall u | u in s.pcs :: s.pcs[u] != RcClear(c)
    ensures s.attempts[c].read.port.Some? && s.attempts[c].read.port.value !in s.closedPorts
  {
    forall u | u in s.pcs
      ensures s.pcs[u] != ArAbandon(c)
    {
      assert ClonePcInv(s, u, s.pcs[u]);
    }
    assert !Ending(s, c);
  }

  /** The port of an armed attempt is there and open, until the call receiving it has closed it. */
  lemma ArmedPortIsOpen(es: seq<Event>, c: nat)
    requires Run(INIT, es) && After(INIT, es).app.cloneState == Some(c)
    requires var s := After(INIT, es);
             c in s.attempts && s.attempts[c].read.armed && forall u | u in s.pcs :: s.pcs[u] != RcClear(c)
    ensures var s := After(INIT, es);
            s.attempts[c].read.port.Some? && s.attempts[c].read.port.value !in s.closedPorts
  {
    Reachable(es);
    OpenRuns(INIT, es);
    LiveArmedIsOpen(After(INIT, es), c);
  }
}

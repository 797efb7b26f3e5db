/**
 Sessions and ports: every session opened is the current one, held by the call
 that is connecting or disconnecting it, or closed once; every port a clone-mode
 read opened has someone left who will close it.
 */
module Resources {
  import opened Results
  import opened AppSections
  import opened Protocol
  import opened Reservation
  import opened CloneAttempts

  // ---- sessions

  /** The session a call is left holding outside the controller's fields. */
  function HeldSession(pc: Pc): Option<Session> {
    if pc.CoInstall? || pc.SessClose? then Some(pc.session) else None
  }

  function HeldNext(next: Option<Pc>): Option<Session> {
    if next.Some? then HeldSession(next.value) else None
  }

  ghost predicate SessionInv(s: Sys) {
    && (s.app.conn.Some? ==> s.app.conn.value in s.sessions && s.sessions[s.app.conn.value] == Current)
    && (forall x | x in s.sessions ::
          && x < s.nextSession
          && (s.sessions[x] == Current ==> s.app.conn == Some(x))
          && (s.sessions[x].InCall? ==> s.sessions[x].t in s.pcs && HeldSession(s.pcs[s.sessions[x].t]) == Some(x))
          && s.closes[x] == if s.sessions[x] == Closed then 1 else 0)
    && (forall x | x in s.closes :: x in s.sessions)
    && (forall u | u in s.pcs && HeldSession(s.pcs[u]).Some? ::
          var x := HeldSession(s.pcs[u]).value; x in s.sessions && s.sessions[x] == InCall(u))
  }

  ghost predicate SessionFieldsKept(s: Sys, m: Moved) {
    && m.sys.pcs == s.pcs && m.sys.app.conn == s.app.conn && m.sys.sessions == s.sessions
    && m.sys.nextSession == s.nextSession && m.sys.closes == s.closes && HeldNext(m.next) == None
  }

  lemma SessionsKept(s: Sys, m: Moved, t: Tid)
    requires SessionInv(s) && SessionFieldsKept(s, m) && HeldNext(PcAt(s, t)) == None
    ensures SessionInv(Land(m, t))
  {
  }

  lemma StartRadioKeepsSessions(s: Sys, t: Tid, call: Call)
    requires call.CallReadRadio? || call.CallWriteSetting?
    ensures SessionFieldsKept(s, StartReserved(s, t, call))
  {
  }

  lemma StartReservedKeepsSessions(s: Sys, t: Tid, call: Call)
    requires ReservedCall(call)
    ensures SessionFieldsKept(s, StartReserved(s, t, call))
  {
    if call.CallReadRadio? || call.CallWriteSetting? {
      StartRadioKeepsSessions(s, t, call);
    }
  }

  lemma StartFileKeepsSessions(s: Sys, call: Call)
    requires FileCall(call)
    ensures SessionFieldsKept(s, StartFile(s, call))
  {
  }

  lemma ConnectStartKeepsSessions(s: Sys, t: Tid)
    ensures SessionFieldsKept(s, StartConnection(s, t, CallConnect))
  {
  }

  lemma StartSendKeepsSessions(s: Sys, t: Tid, call: Call)
    requires SendCall(call)
    ensures SessionFieldsKept(s, StartSend(s, t, call))
  {
  }

  lemma StartCloneKeepsSessions(s: Sys, t: Tid, call: Call)
    requires CloneCall(call)
    ensures SessionFieldsKept(s, StartClone(s, t, call))
  {
  }

  lemma StepReservedKeepsSessions(s: Sys, pc: Pc, out: Outcome)
    requires IsReserved(pc)
    ensures SessionFieldsKept(s, StepReserved(s, pc, out))
  {
  }

  lemma StepFileKeepsSessions(s: Sys, pc: Pc, out: Outcome)
    requires IsFile(pc)
    ensures SessionFieldsKept(s, StepFile(s, pc, out))
  {
  }

  lemma StepSendKeepsSessions(s: Sys, pc: Pc, out: Outcome)
    requires IsSend(pc)
    ensures SessionFieldsKept(s, StepSend(s, pc, out))
  {
  }

  lemma StepOpeningKeepsSessions(s: Sys, pc: Pc, out: Outcome)
    requires IsOpening(pc)
    ensures SessionFieldsKept(s, StepOpening(s, pc, out))
  {
  }

  lemma StepUnwindingKeepsSessions(s: Sys, t: Tid, pc: Pc)
    requires IsUnwinding(pc)
    ensures SessionFieldsKept(s, StepUnwinding(s, t, pc))
  {
  }

  lemma StepCloneKeepsSessions(s: Sys, pc: Pc, out: Outcome)
    requires IsClone(pc)
    ensures SessionFieldsKept(s, StepClone(s, pc, out))
  {
  }

  lemma DisconnectHandsOver(s: Sys, t: Tid)
    requires SessionInv(s) && t !in s.pcs
    ensures SessionInv(Land(StartConnection(s, t, CallDisconnect), t))
  {
    var m := StartConnection(s, t, CallDisconnect);
    if CheckNotBusy(s.app).Some? || s.app.conn.None? {
      SessionsKept(s, m, t);
    }
  }

  lemma SessionAdded(s: Sys, m: Moved, t: Tid)
    requires SessionInv(s) && PcAt(s, t) == Some(CoOpening) && m.sys.pcs == s.pcs && m.sys.app.conn == s.app.conn
    requires m.sys.sessions == s.sessions[s.nextSession := InCall(t)] && m.sys.nextSession == s.nextSession + 1
    requires m.sys.closes == s.closes && m.next == Some(CoInstall(s.nextSession))
    ensures SessionInv(Land(m, t))
  {
  }

  lemma SessionOpens(s: Sys, t: Tid, out: Outcome)
    requires SessionInv(s) && PcAt(s, t) == Some(CoOpening)
    ensures SessionInv(Land(StepConnection(s, t, CoOpening, out), t))
  {
    var m := StepConnection(s, t, CoOpening, out);
    if out.ok {
      SessionAdded(s, m, t);
    } else {
      SessionsKept(s, m, t);
    }
  }

  lemma SessionInstalls(s: Sys, t: Tid, x: Session, out: Outcome)
    requires SessionInv(s) && PcAt(s, t) == Some(CoInstall(x))
    ensures SessionInv(Land(StepConnection(s, t, CoInstall(x), out), t))
  {
  }

  lemma SessionCloses(s: Sys, t: Tid, x: Session, out: Outcome)
    requires SessionInv(s) && PcAt(s, t) == Some(SessClose(x))
    ensures SessionInv(Land(StepConnection(s, t, SessClose(x), out), t))
  {
  }

  // ---- ports

  ghost predicate Cancelling(s: Sys, c: nat, p: Port) {
    exists u | u in s.pcs :: s.pcs[u] == CnClose(c, Some(p))
  }

  /** The port an arming call holds and will publish or close. */
  function HeldPort(pc: Pc): Option<Port> {
    if pc.ArPublish? || pc.ArFailed? || pc.ArClose? then Some(pc.port) else None
  }

  predicate WorksOn(pc: Pc, c: nat) {
    (IsOpening(pc) || IsUnwinding(pc) || IsClone(pc)) && pc.c == c
  }

  /** Someone is left to close port `p` of attempt `c`. */
  ghost predicate Accounted(s: Sys, p: Port, c: nat)
    requires c in s.attempts
  {
    || p in s.closedPorts
    || (s.attempts[c].armer in s.pcs && WorksOn(s.pcs[s.attempts[c].armer], c)
        && HeldPort(s.pcs[s.attempts[c].armer]) == Some(p))
    || (s.attempts[c].read.port == Some(p) && (s.app.cloneState == Some(c) || Cancelling(s, c, p)))
  }

  ghost predicate PortPcInv(s: Sys, pc: Pc) {
    && (pc.ArPublish? || pc.ArFailed? || pc.ArClose? ==> pc.port in s.ports && s.ports[pc.port] == pc.c)
    && (pc.ArAbandon? && pc.c in s.attempts && s.attempts[pc.c].read.port.Some? ==>
          s.attempts[pc.c].read.port.value in s.closedPorts)
    && (pc.RcClear? && pc.c in s.attempts && s.attempts[pc.c].read.port.Some? ==>
          s.attempts[pc.c].read.port.value in s.closedPorts)
  }

  ghost predicate PortInv(s: Sys) {
    && (forall p | p in s.ports :: p < s.nextPort && s.ports[p] in s.attempts && Accounted(s, p, s.ports[p]))
    && (forall c | c in s.attempts && s.attempts[c].read.port.Some? ::
          s.attempts[c].read.port.value in s.ports && s.ports[s.attempts[c].read.port.value] == c)
    && (forall u | u in s.pcs :: PortPcInv(s, s.pcs[u]))
  }

  ghost predicate PortFieldsKept(s: Sys, m: Moved) {
    && m.sys.pcs == s.pcs && m.sys.attempts == s.attempts && m.sys.app.cloneState == s.app.cloneState
    && m.sys.ports == s.ports && m.sys.nextPort == s.nextPort && m.sys.closedPorts == s.closedPorts
  }

  ghost predicate NotCloning(s: Sys, m: Moved) {
    PortFieldsKept(s, m) && !OnClone(m.next)
  }

  lemma StartRadioNotCloning(s: Sys, t: Tid, call: Call)
    requires call.CallReadRadio? || call.CallWriteSetting?
    ensures NotCloning(s, StartReserved(s, t, call))
  {
  }

  lemma StartOnWorkingNotCloning(s: Sys, t: Tid, call: Call)
    requires call.CallPrepareSend? || call.CallReadSettings?
    ensures NotCloning(s, StartReserved(s, t, call))
  {
  }

  lemma StartReservedNotCloning(s: Sys, t: Tid, call: Call)
    requires ReservedCall(call)
    ensures NotCloning(s, StartReserved(s, t, call))
  {
    if call.CallReadRadio? || call.CallWriteSetting? {
      StartRadioNotCloning(s, t, call);
    } else {
      StartOnWorkingNotCloning(s, t, call);
    }
  }

  lemma StartFileNotCloning(s: Sys, call: Call)
    requires FileCall(call)
    ensures NotCloning(s, StartFile(s, call))
  {
  }

  lemma StartConnectionNotCloning(s: Sys, t: Tid, call: Call)
    requires ConnectionCall(call)
    ensures NotCloning(s, StartConnection(s, t, call))
  {
  }

  lemma StartSendNotCloning(s: Sys, t: Tid, call: Call)
    requires SendCall(call)
    ensures NotCloning(s, StartSend(s, t, call))
  {
  }

  lemma StepReadNotCloning(s: Sys, pc: Pc, out: Outcome)
    requires pc.RdReading? || pc.RdStore? || pc.RsReading? || pc.RsMerge?
    ensures NotCloning(s, StepReserved(s, pc, out))
  {
  }

  lemma StepReservedNotCloning(s: Sys, pc: Pc, out: Outcome)
    requires IsReserved(pc)
    ensures NotCloning(s, StepReserved(s, pc, out))
  {
    if pc.RdReading? || pc.RdStore? || pc.RsReading? || pc.RsMerge? {
      StepReadNotCloning(s, pc, out);
    }
  }

  lemma StepFileNotCloning(s: Sys, pc: Pc, out: Outcome)
    requires IsFile(pc)
    ensures NotCloning(s, StepFile(s, pc, out))
  {
  }

  lemma StepConnectionNotCloning(s: Sys, t: Tid, pc: Pc, out: Outcome)
    requires IsConnection(pc)
    ensures NotCloning(s, StepConnection(s, t, pc, out))
  {
  }

  lemma StepSendNotCloning(s: Sys, pc: Pc, out: Outcome)
    requires IsSend(pc)
    ensures NotCloning(s, StepSend(s, pc, out))
  {
  }

  /** Port `p` of attempt `c` stays accounted for when `t` moves. */
  lemma AccountedKept(s: Sys, m: Moved, t: Tid, p: Port, c: nat)
    requires m.sys.pcs == s.pcs && s.closedPorts <= m.sys.closedPorts && c in s.attempts && c in m.sys.attempts
    requires m.sys.attempts[c].armer == s.attempts[c].armer
    requires s.attempts[c].read.port == Some(p) ==> m.sys.attempts[c].read.port == Some(p)
    requires Accounted(s, p, c)
    requires || p in m.sys.closedPorts
             || (&& (t in s.pcs && HeldPort(s.pcs[t]) == Some(p) ==>
                       m.next.Some? && HeldPort(m.next.value) == Some(p) && WorksOn(m.next.value, c))
                 && (s.app.cloneState == Some(c) && s.attempts[c].read.port == Some(p) ==>
                       m.sys.app.cloneState == Some(c) || m.next == Some(CnClose(c, Some(p))))
                 && PcAt(s, t) != Some(CnClose(c, Some(p))))
    ensures Accounted(Land(m, t), p, c)
  {
    if p !in m.sys.closedPorts {
      if Cancelling(s, c, p) {
        var u :| u in s.pcs && s.pcs[u] == CnClose(c, Some(p));
        assert Land(m, t).pcs[u] == CnClose(c, Some(p));
      } else if m.next == Some(CnClose(c, Some(p))) {
        assert Land(m, t).pcs[t] == CnClose(c, Some(p));
      }
    }
  }

  lemma PortsKept(s: Sys, m: Moved, t: Tid)
    requires PortInv(s) && PortFieldsKept(s, m) && !OnClone(PcAt(s, t)) && !OnClone(m.next)
    ensures PortInv(Land(m, t))
  {
    forall p | p in s.ports
      ensures Accounted(Land(m, t), p, s.ports[p])
    {
      AccountedKept(s, m, t, p, s.ports[p]);
    }
  }

  /** The rest of a move that changes one attempt and leaves ports alone. */
  ghost predicate OnlyAttempt(s: Sys, m: Moved, c: nat, at: Attempt) {
    && m.sys.pcs == s.pcs && m.sys.attempts == s.attempts[c := at]
    && m.sys.ports == s.ports && m.sys.nextPort == s.nextPort && m.sys.closedPorts == s.closedPorts
  }

  lemma FreshAttemptPorts(s: Sys, m: Moved, t: Tid, c: nat)
    requires PortInv(s) && t !in s.pcs && c !in s.attempts && s.app.cloneState.None?
    requires OnlyAttempt(s, m, c, Attempt(CloneRead(None, false, false), t)) && m.next == Some(ArOpening(c))
    requires forall u | u in s.pcs && (s.pcs[u].ArAbandon? || s.pcs[u].RcClear?) :: s.pcs[u].c in s.attempts
    ensures PortInv(Land(m, t))
  {
    forall p | p in s.ports
      ensures Accounted(Land(m, t), p, s.ports[p])
    {
      AccountedKept(s, m, t, p, s.ports[p]);
    }
  }

  lemma ArmPorts(s: Sys, t: Tid)
    requires OpsInv(s) && CloneInv(s) && PortInv(s) && t !in s.pcs
    ensures PortInv(Land(StartClone(s, t, CallArm), t))
  {
    var m := StartClone(s, t, CallArm);
    if s.app.opBusy.Some? {
      PortsKept(s, m, t);
    } else {
      forall u | u in s.pcs && (s.pcs[u].ArAbandon? || s.pcs[u].RcClear?)
        ensures s.pcs[u].c in s.attempts
      {
        assert ClonePcInv(s, u, s.pcs[u]);
      }
      FreshAttemptPorts(s, m, t, s.taken);
    }
  }

  lemma CancelledAttemptPorts(s: Sys, m: Moved, t: Tid, c: nat)
    requires PortInv(s) && t !in s.pcs && s.app.cloneState == Some(c) && c in s.attempts && m.sys.app.cloneState == None
    requires OnlyAttempt(s, m, c, Attempt(s.attempts[c].read.(cancelled := true), s.attempts[c].armer))
    requires m.next == Some(CnClose(c, s.attempts[c].read.port))
    ensures PortInv(Land(m, t))
  {
    forall p | p in s.ports
      ensures Accounted(Land(m, t), p, s.ports[p])
    {
      AccountedKept(s, m, t, p, s.ports[p]);
    }
  }

  lemma CancelPorts(s: Sys, t: Tid)
    requires CloneInv(s) && PortInv(s) && t !in s.pcs
    ensures PortInv(Land(StartClone(s, t, CallCancelClone), t))
  {
    var m := StartClone(s, t, CallCancelClone);
    if s.app.cloneState.None? {
      PortsKept(s, m, t);
    } else {
      CancelledAttemptPorts(s, m, t, s.app.cloneState.value);
    }
  }

  lemma ReceivePorts(s: Sys, t: Tid)
    requires PortInv(s) && t !in s.pcs
    ensures PortInv(Land(StartClone(s, t, CallReceive), t))
  {
    var m := StartClone(s, t, CallReceive);
    forall p | p in s.ports
      ensures Accounted(Land(m, t), p, s.ports[p])
    {
      AccountedKept(s, m, t, p, s.ports[p]);
    }
  }

  /** A clone-mode call goes on without touching attempts, ports or `cloneState`. */
  lemma PortsStepped(s: Sys, m: Moved, t: Tid)
    requires PortInv(s) && PortFieldsKept(s, m) && t in s.pcs
    requires !s.pcs[t].CnClose?
    requires HeldPort(s.pcs[t]).Some? ==>
               && m.next.Some? && HeldPort(m.next.value) == HeldPort(s.pcs[t])
               && OnClone(m.next) && m.next.value.c == s.pcs[t].c
    requires m.next.Some? ==> PortPcInv(s, m.next.value)
    ensures PortInv(Land(m, t))
  {
    forall p | p in s.ports
      ensures Accounted(Land(m, t), p, s.ports[p])
    {
      AccountedKept(s, m, t, p, s.ports[p]);
    }
  }

  lemma PortOpens(s: Sys, t: Tid, c: nat, out: Outcome)
    requires CloneInv(s) && PortInv(s) && PcAt(s, t) == Some(ArOpening(c))
    ensures PortInv(Land(StepOpening(s, ArOpening(c), out), t))
  {
    var m := StepOpening(s, ArOpening(c), out);
    forall p | p in s.ports
      ensures Accounted(Land(m, t), p, s.ports[p])
    {
      AccountedKept(s, m, t, p, s.ports[p]);
    }
  }

  lemma PortPublishes(s: Sys, t: Tid, c: nat, q: Port, out: Outcome)
    requires CloneInv(s) && PortInv(s) && PcAt(s, t) == Some(ArPublish(c, q)) && !s.attempts[c].read.cancelled
    ensures PortInv(Land(StepOpening(s, ArPublish(c, q), out), t))
  {
    var m := StepOpening(s, ArPublish(c, q), out);
    forall p | p in s.ports && p != q
      ensures Accounted(Land(m, t), p, s.ports[p])
    {
      AccountedKept(s, m, t, p, s.ports[p]);
    }
  }

  lemma ReceptionPorts(s: Sys, t: Tid, c: nat, q: Port, out: Outcome)
    requires CloneInv(s) && PortInv(s) && PcAt(s, t) == Some(ArReception(c, q)) && !s.attempts[c].read.cancelled
    ensures PortInv(Land(StepOpening(s, ArReception(c, q), out), t))
  {
    var m := StepOpening(s, ArReception(c, q), out);
    forall p | p in s.ports
      ensures Accounted(Land(m, t), p, s.ports[p])
    {
      AccountedKept(s, m, t, p, s.ports[p]);
    }
  }

  lemma OpeningPorts(s: Sys, t: Tid, pc: Pc, out: Outcome)
    requires CloneInv(s) && PortInv(s) && PcAt(s, t) == Some(pc) && IsOpening(pc)
    ensures PortInv(Land(StepOpening(s, pc, out), t))
  {
    if pc.ArOpening? {
      PortOpens(s, t, pc.c, out);
    } else if pc.ArPublish? && !s.attempts[pc.c].read.cancelled {
      PortPublishes(s, t, pc.c, pc.port, out);
    } else if pc.ArReception? && !s.attempts[pc.c].read.cancelled {
      ReceptionPorts(s, t, pc.c, pc.port, out);
    } else {
      PortsStepped(s, StepOpening(s, pc, out), t);
    }
  }

  lemma UnwindingPorts(s: Sys, t: Tid, pc: Pc)
    requires CloneInv(s) && PortInv(s) && PcAt(s, t) == Some(pc) && IsUnwinding(pc)
    ensures PortInv(Land(StepUnwinding(s, t, pc), t))
  {
    var m := StepUnwinding(s, t, pc);
    forall p | p in s.ports
      ensures Accounted(Land(m, t), p, s.ports[p])
    {
      AccountedKept(s, m, t, p, s.ports[p]);
    }
  }

  lemma PortsClose(s: Sys, t: Tid, pc: Pc, out: Outcome)
    requires CloneInv(s) && PortInv(s) && PcAt(s, t) == Some(pc) && (pc.CnClose? || pc.RcClose?)
    ensures PortInv(Land(StepClone(s, pc, out), t))
  {
    var m := StepClone(s, pc, out);
    forall p | p in s.ports
      ensures Accounted(Land(m, t), p, s.ports[p])
    {
      AccountedKept(s, m, t, p, s.ports[p]);
    }
  }

  lemma ReceiveClearsPorts(s: Sys, t: Tid, c: nat, out: Outcome)
    requires CloneInv(s) && PortInv(s) && PcAt(s, t) == Some(RcClear(c))
    ensures PortInv(Land(StepClone(s, RcClear(c), out), t))
  {
    var m := StepClone(s, RcClear(c), out);
    forall p | p in s.ports
      ensures Accounted(Land(m, t), p, s.ports[p])
    {
      AccountedKept(s, m, t, p, s.ports[p]);
    }
  }

  lemma ClonePorts(s: Sys, t: Tid, pc: Pc, out: Outcome)
    requires CloneInv(s) && PortInv(s) && PcAt(s, t) == Some(pc) && IsClone(pc)
    ensures PortInv(Land(StepClone(s, pc, out), t))
  {
    if pc.CnClose? || pc.RcClose? {
      PortsClose(s, t, pc, out);
    } else if pc.RcClear? {
      ReceiveClearsPorts(s, t, pc.c, out);
    } else {
      PortsStepped(s, StepClone(s, pc, out), t);
    }
  }
}

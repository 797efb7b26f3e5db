/**
 What the controller guarantees over every run, read off the invariants.
 */
module Guarantees {
  import opened Results
  import opened AppSections
  import opened Protocol
  import opened Reservation
  import opened CloneAttempts
  import opened Sends
  import opened Resources
  import opened Interleavings

  // ---- reservations

  lemma {:induction false} HistoryAlternates(taken: nat, open: bool)
    requires open ==> taken > 0
    ensures |History(taken, open)| == 2 * taken - if open then 1 else 0
    ensures forall i | 0 <= i < taken :: History(taken, open)[2 * i] == Reserved(i)
    ensures forall i | 0 <= i < taken && (i < taken - 1 || !open) :: History(taken, open)[2 * i + 1] == Released(i)
  {
    if taken > 0 {
      HistoryAlternates(taken - 1, false);
    }
  }

  lemma LogAlternates(s: Sys)
    requires OpsInv(s)
    ensures |s.log| == 2 * s.taken - (if s.app.opBusy.Some? then 1 else 0)
    ensures forall i | 0 <= i < |s.log| :: s.log[i] == if i % 2 == 0 then Reserved(i / 2) else Released(i / 2)
  {
    HistoryAlternates(s.taken, s.holder.Some?);
    forall i | 0 <= i < |s.log|
      ensures s.log[i] == if i % 2 == 0 then Reserved(i / 2) else Released(i / 2)
    {
      assert i == 2 * (i / 2) + i % 2;
    }
  }

  /**
   Whatever the interleaving, reservations and releases alternate, each release
   being that of the reservation before it; `opBusy` is set exactly between the two.
   */
  lemma ReservationsAlternate(es: seq<Event>)
    requires Run(INIT, es)
    ensures var s := After(INIT, es);
            && |s.log| == 2 * s.taken - (if s.app.opBusy.Some? then 1 else 0)
            && forall i | 0 <= i < |s.log| :: s.log[i] == if i % 2 == 0 then Reserved(i / 2) else Released(i / 2)
  {
    Reachable(es);
    LogAlternates(After(INIT, es));
  }

  lemma OwersAgree(s: Sys, u: Tid, v: Tid)
    requires OpsInv(s) && u in s.pcs && Owes(s.pcs[u]).Some?
    ensures s.app.opBusy.Some? && Owes(s.pcs[u]) == Some(s.taken - 1)
    ensures v in s.pcs && Owes(s.pcs[v]).Some? ==> u == v
  {
  }

  /** At most one call is between taking and giving back, and it holds the latest reservation. */
  lemma OneOperationAtATime(es: seq<Event>, u: Tid, v: Tid)
    requires Run(INIT, es)
    requires u in After(INIT, es).pcs && Owes(After(INIT, es).pcs[u]).Some?
    ensures After(INIT, es).app.opBusy.Some? && Owes(After(INIT, es).pcs[u]) == Some(After(INIT, es).taken - 1)
    ensures v in After(INIT, es).pcs && Owes(After(INIT, es).pcs[v]).Some? ==> u == v
  {
    Reachable(es);
    OwersAgree(After(INIT, es), u, v);
  }

  /** Someone will release the reservation: a call in progress, or the attempt that is armed or being armed. */
  ghost predicate Owned(s: Sys) {
    || (s.holder.Some? && s.holder.value.ByThread? && s.holder.value.t in s.pcs
        && Owes(s.pcs[s.holder.value.t]) == Some(s.taken - 1))
    || (&& s.app.cloneState == Some(s.taken - 1) && s.taken - 1 in s.attempts
        && var a := s.attempts[s.taken - 1];
           && !a.read.cancelled
           && (a.read.armed || (a.armer in s.pcs && Arming(s.pcs[a.armer], s.taken - 1))))
  }

  lemma HeldMeansOwned(s: Sys)
    requires OpsInv(s) && CloneInv(s) && s.app.opBusy.Some?
    ensures Owned(s)
  {
  }

  /** The reservation cannot be lost: while it is held, someone is left to release it. */
  lemma ReservationIsOwned(es: seq<Event>)
    requires Run(INIT, es) && After(INIT, es).app.opBusy.Some?
    ensures Owned(After(INIT, es))
  {
    Reachable(es);
    HeldMeansOwned(After(INIT, es));
  }

  // ---- the front end's discipline is exactly what this needs

  ghost predicate SingleOwner(s: Sys) {
    forall u, v | u in s.pcs && v in s.pcs && Owes(s.pcs[u]).Some? && Owes(s.pcs[v]).Some? :: u == v
  }

  ghost predicate ReceivesArmed(s: Sys) {
    forall u | u in s.pcs && IsClone(s.pcs[u]) && !s.pcs[u].CnClose? ::
      s.pcs[u].c in s.attempts && s.attempts[s.pcs[u].c].read.armed
  }

  ghost predicate WellOwned(s: Sys) {
    SingleOwner(s) && ReceivesArmed(s)
  }

  lemma InvMeansWellOwned(s: Sys)
    requires Inv(s)
    ensures WellOwned(s)
  {
    forall u | u in s.pcs && IsClone(s.pcs[u]) && !s.pcs[u].CnClose?
      ensures s.pcs[u].c in s.attempts && s.attempts[s.pcs[u].c].read.armed
    {
      assert ClonePcInv(s, u, s.pcs[u]);
    }
  }

  lemma UnarmedReceiveBreaks(s: Sys, t: Tid, c: nat)
    requires t !in s.pcs && s.app.cloneState == Some(c) && c in s.attempts && !s.attempts[c].read.armed
    ensures !ReceivesArmed(Apply(s, Start(t, CallReceive)))
  {
    assert Land(StartClone(s, t, CallReceive), t).pcs[t] == RcReceiving(c);
  }

  lemma TwoOwners(s: Sys, t: Tid, u: Tid)
    requires t in s.pcs && u in s.pcs && t != u && Owes(s.pcs[t]).Some? && Owes(s.pcs[u]).Some?
    ensures !SingleOwner(s)
  {
  }

  lemma IntruderOwes(s: Sys, t: Tid, call: Call, c: nat)
    requires s.app.cloneState == Some(c) && c in s.attempts && (call.CallReceive? || call.CallCancelClone?)
    ensures var m := StartClone(s, t, call); m.sys.pcs == s.pcs && m.next.Some? && Owes(m.next.value).Some?
  {
  }

  lemma OverlapBreaks(s: Sys, t: Tid, call: Call, c: nat, u: Tid)
    requires t !in s.pcs && s.app.cloneState == Some(c) && c in s.attempts
    requires call.CallReceive? || call.CallCancelClone?
    requires u in s.pcs && Receiving(s.pcs[u], c)
    ensures !SingleOwner(Apply(s, Start(t, call)))
  {
    IntruderOwes(s, t, call, c);
    var s' := Land(StartClone(s, t, call), t);
    assert s'.pcs[u] == s.pcs[u];
    TwoOwners(s', t, u);
  }

  lemma UndisciplinedBreaks(s: Sys, t: Tid, call: Call)
    requires CloneInv(s) && t !in s.pcs && !Disciplined(s, Start(t, call))
    ensures !WellOwned(Apply(s, Start(t, call)))
  {
    var c := s.app.cloneState.value;
    if call.CallReceive? && !s.attempts[c].read.armed {
      UnarmedReceiveBreaks(s, t, c);
    } else {
      var u :| u in s.pcs && Receiving(s.pcs[u], c);
      OverlapBreaks(s, t, call, c, u);
    }
  }

  /**
   For any event at all in a reachable state: the next state has a single owner
   of the reservation and receives only through armed handles if and only if the
   event obeys the rule.
   */
  lemma DisciplineIsExact(es: seq<Event>, e: Event)
    requires Run(INIT, es) && Enabled(After(INIT, es), e)
    ensures WellOwned(Apply(After(INIT, es), e)) <==> Disciplined(After(INIT, es), e)
  {
    Reachable(es);
    var s := After(INIT, es);
    if Disciplined(s, e) {
      InvPreserved(s, e);
      InvMeansWellOwned(Apply(s, e));
    } else {
      UndisciplinedBreaks(s, e.t, e.call);
    }
  }

  // ---- sending

  /** At most one plan is executing; its session and plan are still the controller's. */
  lemma OneExecute(es: seq<Event>, u: Tid, v: Tid)
    requires Run(INIT, es)
    requires u in After(INIT, es).pcs && Flying(After(INIT, es).pcs[u])
    ensures var s := After(INIT, es);
            && s.app.conn == Some(s.pcs[u].session) && s.app.currentPlan == Some(s.pcs[u].plan)
            && s.pcs[u].plan.session == s.pcs[u].session && s.app.transfer.running
            && (v in s.pcs && Flying(s.pcs[v]) ==> u == v)
  {
    Reachable(es);
    var s := After(INIT, es);
    assert SendPcInv(s, u, s.pcs[u]);
    if v in s.pcs && Flying(s.pcs[v]) {
      assert SendPcInv(s, v, s.pcs[v]);
    }
  }

  /** A stored plan was prepared on the current session, and no plan is ever executed twice. */
  lemma PlansFitAndRunOnce(es: seq<Event>)
    requires Run(INIT, es)
    ensures var s := After(INIT, es);
            && (s.app.currentPlan.Some? ==> s.app.conn == Some(s.app.currentPlan.value.session))
            && Distinct(s.executed)
  {
    Reachable(es);
  }

  /** Until its own completion section, nothing moves the connection or the plan of an executing call. */
  lemma ExecuteIsUndisturbed(es: seq<Event>, e: Event, u: Tid)
    requires Run(INIT, es) && Enabled(After(INIT, es), e) && Disciplined(After(INIT, es), e)
    requires var s := After(INIT, es);
             u in s.pcs && Flying(s.pcs[u]) && !(e.t == u && s.pcs[u].ExFinish?)
    ensures var s, s' := After(INIT, es), Apply(After(INIT, es), e);
            && u in s'.pcs && Flying(s'.pcs[u]) && s'.pcs[u].plan == s.pcs[u].plan
            && s'.app.conn == s.app.conn && s'.app.currentPlan == s.app.currentPlan
  {
    Reachable(es);
    var s := After(INIT, es);
    InvPreserved(s, e);
    assert SendPcInv(s, u, s.pcs[u]);
    FlyingStays(s, e, u);
    assert SendPcInv(Apply(s, e), u, Apply(s, e).pcs[u]);
  }

  lemma FlyingStays(s: Sys, e: Event, u: Tid)
    requires Enabled(s, e) && u in s.pcs && Flying(s.pcs[u]) && !(e.t == u && s.pcs[u].ExFinish?)
    ensures var s' := Apply(s, e);
            u in s'.pcs && Flying(s'.pcs[u]) && s'.pcs[u].plan == s.pcs[u].plan && s'.pcs[u].session == s.pcs[u].session
  {
    if e.t != u {
      OthersKeepTheirPlace(s, e, u);
    }
  }

  lemma StartKeepsPcs(s: Sys, t: Tid, call: Call)
    ensures StartCall(s, t, call).sys.pcs == s.pcs
  {
  }

  lemma StepKeepsPcs(s: Sys, t: Tid, out: Outcome)
    requires t in s.pcs
    ensures Step(s, t, out).sys.pcs == s.pcs
  {
  }

  lemma OthersKeepTheirPlace(s: Sys, e: Event, u: Tid)
    requires Enabled(s, e) && u in s.pcs && e.t != u
    ensures u in Apply(s, e).pcs && Apply(s, e).pcs[u] == s.pcs[u]
  {
    match e
    case Start(t, call) => StartKeepsPcs(s, t, call);
    case Advance(t, out) => StepKeepsPcs(s, t, out);
  }

  /** No other call, in particular no losing ConfirmSend, clears the transfer of the call that holds it. */
  lemma TransferIsItsOwners(es: seq<Event>, e: Event, u: Tid)
    requires Run(INIT, es) && Enabled(After(INIT, es), e)
    requires var s := After(INIT, es); u in s.pcs && Transfers(s.pcs[u]) && e.t != u
    ensures var s, s' := After(INIT, es), Apply(After(INIT, es), e);
            s'.app.transfer == s.app.transfer && s'.sender == s.sender && u in s'.pcs && s'.pcs[u] == s.pcs[u]
  {
    Reachable(es);
    TransferIsLeft(After(INIT, es), e, u);
  }

  lemma TransferIsLeft(s: Sys, e: Event, u: Tid)
    requires SendInv(s) && Enabled(s, e) && u in s.pcs && Transfers(s.pcs[u]) && e.t != u
    ensures var s' := Apply(s, e);
            s'.app.transfer == s.app.transfer && s'.sender == s.sender && u in s'.pcs && s'.pcs[u] == s.pcs[u]
  {
    assert SendPcInv(s, u, s.pcs[u]);
    OthersKeepTheirPlace(s, e, u);
    match e
    case Start(t, call) =>
      StartLeavesTransfer(s, t, call);
    case Advance(t, out) =>
      assert SendPcInv(s, t, s.pcs[t]);
      StepLeavesTransfer(s, t, out);
  }

  lemma StartLeavesTransfer(s: Sys, t: Tid, call: Call)
    requires s.app.transfer.running
    ensures var m := StartCall(s, t, call); m.sys.app.transfer == s.app.transfer && m.sys.sender == s.sender
  {
  }

  lemma StepLeavesTransfer(s: Sys, t: Tid, out: Outcome)
    requires t in s.pcs && !Transfers(s.pcs[t])
    ensures var m := Step(s, t, out); m.sys.app.transfer == s.app.transfer && m.sys.sender == s.sender
  {
    if !OnSend(Some(s.pcs[t])) && !s.pcs[t].CoInstall? {
      StepOther(s, t, out);
    }
  }

  /** The cancel function of a plan is stored before it executes, and for as long as it does. */
  ghost predicate CancelStored(s: Sys) {
    forall u | u in s.pcs && Flying(s.pcs[u]) :: s.app.transfer.cancel == Some(s.pcs[u].plan.id)
  }

  lemma FlightBegins(s: Sys, pc: Pc, out: Outcome)
    requires IsSend(pc) && (Flying(pc) ==> s.app.transfer.cancel == Some(pc.plan.id))
    ensures var m := StepSend(s, pc, out);
            m.next.Some? && Flying(m.next.value) ==> m.sys.app.transfer.cancel == Some(m.next.value.plan.id)
  {
  }

  lemma StepsDoNotFly(s: Sys, t: Tid, out: Outcome)
    requires t in s.pcs && !IsSend(s.pcs[t])
    ensures var m := Step(s, t, out); m.next.Some? ==> !Flying(m.next.value)
  {
  }

  lemma StepFlies(s: Sys, t: Tid, out: Outcome)
    requires CancelStored(s) && t in s.pcs
    ensures var m := Step(s, t, out);
            m.next.Some? && Flying(m.next.value) ==> m.sys.app.transfer.cancel == Some(m.next.value.plan.id)
  {
    if IsSend(s.pcs[t]) {
      FlightBegins(s, s.pcs[t], out);
      assert Step(s, t, out) == StepSend(s, s.pcs[t], out);
    } else {
      StepsDoNotFly(s, t, out);
    }
  }

  lemma StartsDoNotFly(s: Sys, t: Tid, call: Call)
    ensures var m := StartCall(s, t, call); m.next.Some? ==> !Flying(m.next.value)
  {
  }

  lemma OthersWereThere(s: Sys, e: Event, u: Tid)
    requires Enabled(s, e) && u in Apply(s, e).pcs && e.t != u
    ensures u in s.pcs && s.pcs[u] == Apply(s, e).pcs[u]
  {
    match e
    case Start(t, call) => StartKeepsPcs(s, t, call);
    case Advance(t, out) => StepKeepsPcs(s, t, out);
  }

  lemma OwnFlight(s: Sys, e: Event)
    requires CancelStored(s) && Enabled(s, e) && e.t in Apply(s, e).pcs && Flying(Apply(s, e).pcs[e.t])
    ensures Apply(s, e).app.transfer.cancel == Some(Apply(s, e).pcs[e.t].plan.id)
  {
    match e
    case Start(t, call) => StartsDoNotFly(s, t, call);
    case Advance(t, out) => StepFlies(s, t, out);
  }

  lemma CancelPreserved(s: Sys, e: Event)
    requires SendInv(s) && CancelStored(s) && Enabled(s, e)
    ensures CancelStored(Apply(s, e))
  {
    var s' := Apply(s, e);
    forall u | u in s'.pcs && Flying(s'.pcs[u])
      ensures s'.app.transfer.cancel == Some(s'.pcs[u].plan.id)
    {
      if u == e.t {
        OwnFlight(s, e);
      } else {
        OthersWereThere(s, e, u);
        TransferIsLeft(s, e, u);
      }
    }
  }

  lemma {:induction false} CancelRuns(s: Sys, es: seq<Event>)
    requires Inv(s) && CancelStored(s) && Run(s, es)
    ensures CancelStored(After(s, es))
    decreases |es|
  {
    if es != [] {
      CancelPreserved(s, es[0]);
      InvPreserved(s, es[0]);
      CancelRuns(Apply(s, es[0]), es[1..]);
    }
  }

  /** CancelTransfer finds something to cancel exactly while a plan executes, and what it cancels is that plan. */
  lemma CancelEndsTheFlyingPlan(es: seq<Event>, id: nat)
    requires Run(INIT, es)
    ensures var s := After(INIT, es);
            && (BeginCancelTransfer(s.app) == Ok(id) <==>
                  exists u | u in s.pcs :: Flying(s.pcs[u]) && s.pcs[u].plan.id == id)
            && (BeginCancelTransfer(s.app).Err? <==> forall u | u in s.pcs :: !Flying(s.pcs[u]))
  {
    Reachable(es);
    CancelRuns(INIT, es);
    CancelIsExact(After(INIT, es), id);
  }

  lemma CancelIsExact(s: Sys, id: nat)
    requires SendInv(s) && CancelStored(s)
    ensures BeginCancelTransfer(s.app) == Ok(id) <==>
              exists u | u in s.pcs :: Flying(s.pcs[u]) && s.pcs[u].plan.id == id
    ensures BeginCancelTransfer(s.app).Err? <==> forall u | u in s.pcs :: !Flying(s.pcs[u])
  {
    if u :| u in s.pcs && Flying(s.pcs[u]) {
      assert SendPcInv(s, u, s.pcs[u]);
    }
    if s.app.transfer.cancel.Some? {
      assert s.sender.value in s.pcs && Flying(s.pcs[s.sender.value]);
    }
  }

  // ---- sessions and ports

  /** Every session ever opened is the current one, in one call's hands, or closed exactly once. */
  lemma SessionsAreConserved(es: seq<Event>, x: Session)
    requires Run(INIT, es) && x in After(INIT, es).sessions
    ensures var s := After(INIT, es);
            match s.sessions[x]
            case Current => s.app.conn == Some(x) && s.closes[x] == 0
            case InCall(t) =>
              t in s.pcs && HeldSession(s.pcs[t]) == Some(x) && s.app.conn != Some(x) && s.closes[x] == 0
            case Closed => s.app.conn != Some(x) && s.closes[x] == 1
  {
    Reachable(es);
  }

  /** Two calls never hold the same session, so no session is closed twice. */
  lemma SessionsAreNotShared(es: seq<Event>, u: Tid, v: Tid)
    requires Run(INIT, es)
    requires var s := After(INIT, es);
             u in s.pcs && v in s.pcs && HeldSession(s.pcs[u]).Some? && HeldSession(s.pcs[u]) == HeldSession(s.pcs[v])
    ensures u == v
  {
    Reachable(es);
  }

  /** Once an attempt is over and its calls have returned, every port it opened is closed. */
  lemma PortsAreClosed(es: seq<Event>, p: Port)
    requires Run(INIT, es) && p in After(INIT, es).ports
    requires var s := After(INIT, es);
             s.app.cloneState != Some(s.ports[p]) && forall u | u in s.pcs :: !WorksOn(s.pcs[u], s.ports[p])
    ensures p in After(INIT, es).closedPorts
  {
    Reachable(es);
    var s := After(INIT, es);
    var c := s.ports[p];
    assert Accounted(s, p, c);
    assert !Cancelling(s, c, p) by {
      forall u | u in s.pcs
        ensures s.pcs[u] != CnClose(c, Some(p))
      {
        assert !WorksOn(s.pcs[u], c);
      }
    }
  }

  /** When every call has returned and nothing is armed, all is given back. */
  lemma QuietMeansFree(es: seq<Event>)
    requires Run(INIT, es)
    requires var s := After(INIT, es); s.pcs == map[] && s.app.cloneState.None?
    ensures var s := After(INIT, es);
            && s.app.opBusy.None? && !s.app.transfer.running
            && (forall p | p in s.ports :: p in s.closedPorts)
            && (forall x | x in s.sessions :: s.app.conn == Some(x) || s.closes[x] == 1)
  {
    Reachable(es);
    var s := After(INIT, es);
    forall p | p in s.ports
      ensures p in s.closedPorts
    {
      PortsAreClosed(es, p);
    }
  }
}

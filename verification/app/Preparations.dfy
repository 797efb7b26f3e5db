/**
 What a send would send: a plan carries the content the working copy had when
 PrepareSend looked, and nothing changes the working copy until the plan is stored.
 */
module Preparations {
  import opened Results
  import opened AppSections
  import opened Protocol
  import opened Reservation
  import opened Sends
  import opened Interleavings
  import Contents
  import Exclusion
  import Guarantees

  predicate Prepares(pc: Pc) {
    pc.PsPreparing? || pc.PsStore?
  }

  /** The content a plan is, or has been, prepared from. */
  function Carried(pc: Pc): Content
    requires Prepares(pc)
  {
    if pc.PsPreparing? then pc.copy else pc.plan.content
  }

  ghost predicate PrepInv(s: Sys) {
    forall u | u in s.pcs && Prepares(s.pcs[u]) :: s.app.working == Some(Carried(s.pcs[u]))
  }

  // ---- one event

  lemma StartPrepares(s: Sys, t: Tid, call: Call)
    ensures var m := StartCall(s, t, call);
            m.next.Some? && Prepares(m.next.value) ==> m.sys.app.working == Some(Carried(m.next.value))
  {
    if call.CallPrepareSend? {
      Contents.StartPrepareContent(s, t);
    }
  }

  lemma StepPrepares(s: Sys, t: Tid, out: Outcome)
    requires t in s.pcs
    ensures var m := Step(s, t, out);
            m.next.Some? && Prepares(m.next.value) ==>
              && Prepares(s.pcs[t]) && Carried(m.next.value) == Carried(s.pcs[t])
              && m.sys.app.working == s.app.working
  {
  }

  lemma OwnerPrepares(s: Sys, e: Event)
    requires PrepInv(s) && Enabled(s, e)
    requires e.t in Apply(s, e).pcs && Prepares(Apply(s, e).pcs[e.t])
    ensures Apply(s, e).app.working == Some(Carried(Apply(s, e).pcs[e.t]))
  {
    match e
    case Start(t, call) => StartPrepares(s, t, call);
    case Advance(t, out) => StepPrepares(s, t, out);
  }

  /** Nobody else's step touches the working copy while a plan is being prepared. */
  lemma OthersLeaveIt(s: Sys, e: Event, u: Tid)
    requires OpsInv(s) && Enabled(s, e) && u in s.pcs && Prepares(s.pcs[u]) && e.t != u
    ensures Apply(s, e).app.working == s.app.working
  {
    assert Owes(s.pcs[u]).Some?;
    Exclusion.HolderEdits(s, e);
  }

  lemma PrepPreserved(s: Sys, e: Event)
    requires OpsInv(s) && PrepInv(s) && Enabled(s, e)
    ensures PrepInv(Apply(s, e))
  {
    var s' := Apply(s, e);
    forall u | u in s'.pcs && Prepares(s'.pcs[u])
      ensures s'.app.working == Some(Carried(s'.pcs[u]))
    {
      if u == e.t {
        OwnerPrepares(s, e);
      } else {
        Guarantees.OthersWereThere(s, e, u);
        OthersLeaveIt(s, e, u);
      }
    }
  }

  // ---- the current plan

  lemma StartLeavesPlan(s: Sys, t: Tid, call: Call)
    ensures var p := StartCall(s, t, call).sys.app.currentPlan; p == s.app.currentPlan || p.None?
  {
    if ReservedCall(call) && !call.CallPrepareSend? { StartReadNotSending(s, t, call); }
    else if FileCall(call) { StartFileNotSending(s, call); }
    else if call.CallConnect? { ConnectStartNotSending(s, t); }
    else if CloneCall(call) { StartCloneNotSending(s, t, call); }
  }

  lemma StepLeavesPlan(s: Sys, t: Tid, out: Outcome)
    requires t in s.pcs
    ensures var p := Step(s, t, out).sys.app.currentPlan;
            if s.pcs[t].PsStore? then p == Some(s.pcs[t].plan) else p == s.app.currentPlan || p.None?
  {
    if !OnSend(Some(s.pcs[t])) && !s.pcs[t].CoInstall? {
      StepOther(s, t, out);
    }
  }

  /** The plan of a state, if the working copy still has its content. */
  function Fitting(s: Sys): set<Plan> {
    if s.app.currentPlan.Some? && s.app.working == Some(s.app.currentPlan.value.content) then {s.app.currentPlan.value}
    else {}
  }

  lemma StoredPlanFits(s: Sys, e: Event)
    requires PrepInv(s) && Enabled(s, e) && e.Advance? && s.pcs[e.t].PsStore?
    ensures Fitting(Apply(s, e)) == {s.pcs[e.t].plan}
  {
  }

  /** Storing is the only way to a plan that was not current before. */
  lemma PlanIsOldOrFits(s: Sys, e: Event)
    requires PrepInv(s) && Enabled(s, e) && Apply(s, e).app.currentPlan.Some?
    ensures var p := Apply(s, e).app.currentPlan; p == s.app.currentPlan || p.value in Fitting(Apply(s, e))
  {
    match e
    case Start(t, call) => StartLeavesPlan(s, t, call);
    case Advance(t, out) =>
      StepLeavesPlan(s, t, out);
      if s.pcs[t].PsStore? {
        StoredPlanFits(s, e);
      }
  }

  // ---- every run

  /** The plans that were current at some moment of a run with the working copy at their content. */
  ghost function Fitted(s: Sys, es: seq<Event>): set<Plan>
    requires Run(s, es)
    decreases |es|
  {
    Fitting(s) + if es == [] then {} else Fitted(Apply(s, es[0]), es[1..])
  }

  lemma {:induction false} PrepRuns(s: Sys, es: seq<Event>)
    requires Inv(s) && PrepInv(s) && Run(s, es)
    ensures PrepInv(After(s, es))
    ensures var p := After(s, es).app.currentPlan; p.None? || p == s.app.currentPlan || p.value in Fitted(s, es)
    decreases |es|
  {
    if es != [] {
      PrepPreserved(s, es[0]);
      InvPreserved(s, es[0]);
      PrepRuns(Apply(s, es[0]), es[1..]);
      if Apply(s, es[0]).app.currentPlan.Some? {
        PlanIsOldOrFits(s, es[0]);
      }
    }
  }

  lemma {:induction false} FittedAt(s: Sys, es: seq<Event>, p: Plan) returns (k: nat)
    requires Run(s, es) && p in Fitted(s, es)
    ensures k <= |es| && Run(s, es[..k])
    ensures var a := After(s, es[..k]).app; a.currentPlan == Some(p) && a.working == Some(p.content)
    decreases |es|
  {
    if p in Fitting(s) {
      k := 0;
    } else {
      var j := FittedAt(Apply(s, es[0]), es[1..], p);
      k := j + 1;
      assert es[..k][1..] == es[1..][..j];
    }
  }

  /** What PrepareSend hands to the radio's side is the working copy as it is, for as long as it prepares. */
  lemma SnapshotIsTheWorkingCopy(es: seq<Event>, u: Tid)
    requires Run(INIT, es) && u in After(INIT, es).pcs && After(INIT, es).pcs[u].PsPreparing?
    ensures After(INIT, es).app.working == Some(After(INIT, es).pcs[u].copy)
  {
    PrepRuns(INIT, es);
  }

  /** The section that stores a plan leaves it current, with the working copy at the content it was prepared from. */
  lemma PlanIsStoredInTime(es: seq<Event>, u: Tid, out: Outcome)
    requires Run(INIT, es) && u in After(INIT, es).pcs && After(INIT, es).pcs[u].PsStore?
    ensures var plan, a := After(INIT, es).pcs[u].plan, Apply(After(INIT, es), Advance(u, out)).app;
            a.currentPlan == Some(plan) && a.working == Some(plan.content)
  {
    PrepRuns(INIT, es);
    StoredPlanFits(After(INIT, es), Advance(u, out));
  }

  /**
   A plan that executes would send what the working copy once was: at some moment of
   the run it was the current plan and the working copy had its content.
   */
  lemma ExecutedWasTheWorkingCopy(es: seq<Event>, u: Tid)
    requires Run(INIT, es) && u in After(INIT, es).pcs && Flying(After(INIT, es).pcs[u])
    ensures exists k: nat ::
              && k <= |es| && Run(INIT, es[..k])
              && var a, plan := After(INIT, es[..k]).app, After(INIT, es).pcs[u].plan;
                 a.currentPlan == Some(plan) && a.working == Some(plan.content)
  {
    Guarantees.OneExecute(es, u, u);
    PrepRuns(INIT, es);
    var k := FittedAt(INIT, es, After(INIT, es).pcs[u].plan);
  }
}

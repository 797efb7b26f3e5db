/**
 The controller's methods run the interleaving model: driven by calls that keep
 only their own program counters, the objects go through the states of `Protocol`,
 one event at a time.
 */
module Simulation {
  import opened Results
  import opened AppSections
  import opened Protocol
  import opened Controller
  import opened CloneAttempts
  import opened Resources
  import opened Interleavings

  lemma StartKeepsAttempts(s: Sys, t: Tid, call: Call)
    requires !CloneCall(call)
    ensures Land(StartCall(s, t, call), t).attempts == s.attempts
  {
    if ReservedCall(call) {
      StartReservedNotCloning(s, t, call);
    } else if FileCall(call) {
      StartFileNotCloning(s, call);
    } else if ConnectionCall(call) {
      StartConnectionNotCloning(s, t, call);
    } else {
      StartSendNotCloning(s, t, call);
    }
  }

  /**
   Any number of calls on one controller: where each of them is, the attempts they
   refer to, how many names have been given out, and the model that follows.
   */
  class Driver {
    const app: Controller.App
    var objects: map<nat, CloneReadState>
    var pcs: map<Tid, Pc>
    var taken: nat
    var bumps: nat
    var nextSession: Session
    var nextPlan: nat
    var nextPort: Port
    ghost var model: Sys

    constructor ()
      ensures Linked() && AttemptsLinked() && fresh(app) && objects == map[] && model == INIT
    {
      app := new Controller.App();
      objects, pcs, taken, bumps, nextSession, nextPlan, nextPort := map[], map[], 0, 0, 0, 0, 0;
      model := INIT;
    }

    ghost predicate Linked()
      reads this, app
    {
      && app.State() == model.app && pcs == model.pcs && taken == model.taken && bumps == model.bumps
      && nextSession == model.nextSession && nextPlan == model.nextPlan && nextPort == model.nextPort
    }

    ghost predicate AttemptsLinked()
      reads this, app, objects.Values
    {
      && objects.Keys == model.attempts.Keys
      && (forall c | c in objects :: c < taken && objects[c].id == c && objects[c].View() == model.attempts[c].read)
      && (app.cloneState != null ==> app.cloneState.id in objects && objects[app.cloneState.id] == app.cloneState)
    }

    method Go(t: Tid, pc: Pc)
      modifies this`pcs
      ensures pcs == old(pcs)[t := pc]
    {
      pcs := pcs[t := pc];
    }

    method Return(t: Tid)
      modifies this`pcs
      ensures pcs == old(pcs) - {t}
    {
      pcs := pcs - {t};
    }

    /** A section that found the revision at `before` is over. */
    method Count(before: nat)
      modifies this`bumps
      ensures bumps == old(bumps) + if app.workingRev != before then 1 else 0
    {
      if app.workingRev != before {
        bumps := bumps + 1;
      }
    }

    // ---- the first section of each call

    method StartReservedCall(t: Tid, call: Call)
      requires Linked() && t !in pcs && ReservedCall(call)
      modifies this`pcs, this`taken, this`model, app`opBusy
      ensures Linked() && old(taken) <= taken && model == Land(StartReserved(old(model), t, call), t)
    {
      model := Land(StartReserved(model, t, call), t);
      match call {
        case CallReadRadio =>
          var r := app.StartReadRadio();
          if r.Ok? { Go(t, RdReading(r.value, taken)); taken := taken + 1; }
        case CallPrepareSend =>
          var r := app.StartPrepareSend();
          if r.Ok? { Go(t, PsPreparing(r.value.0, r.value.1, taken)); taken := taken + 1; }
        case CallReadSettings =>
          var r := app.StartReadSettings();
          if r.Ok? { Go(t, RsReading(r.value, taken)); taken := taken + 1; }
        case CallWriteSetting =>
          var r := app.StartWriteSetting();
          if r.Ok? { Go(t, WsWriting(r.value, taken)); taken := taken + 1; }
      }
    }

    method StartFileCall(t: Tid, call: Call)
      requires Linked() && t !in pcs && FileCall(call)
      modifies this`pcs, this`bumps, this`model, app`working, app`workingRev, app`dirty
      ensures Linked() && model == Land(StartFile(old(model), call), t)
    {
      model := Land(StartFile(model, call), t);
      match call {
        case CallSave(path) =>
          var r := app.StartSave(path);
          if r.Ok? { Go(t, SvWriting(path, r.value.0, r.value.1, bumps)); }
        case CallLoad(path) =>
          var busy := app.CheckNotBusyLocked();
          if busy.None? { Go(t, LdLoading(path)); }
        case CallEdit(edited) =>
          var before := app.workingRev;
          var refused := app.UpdateChannels(edited);
          Count(before);
        case CallImport =>
          var refused := app.StartImport();
          if refused.None? { Go(t, ImParsing); }
      }
    }

    method StartConnectionCall(t: Tid, call: Call)
      requires Linked() && t !in pcs && ConnectionCall(call)
      modifies this`pcs, this`model, app`conn, app`currentPlan
      ensures Linked() && model == Land(StartConnection(old(model), t, call), t)
    {
      model := Land(StartConnection(model, t, call), t);
      match call {
        case CallConnect =>
          var refused := app.StartConnect();
          if refused.None? { Go(t, CoOpening); }
        case CallDisconnect =>
          var r := app.StartDisconnect();
          if r.Ok? { Go(t, SessClose(r.value)); }
      }
    }

    method StartSendCall(t: Tid, call: Call)
      requires Linked() && t !in pcs && SendCall(call)
      modifies this`pcs, this`model, app`transfer
      ensures Linked() && model == Land(StartSend(old(model), t, call), t)
    {
      model := Land(StartSend(model, t, call), t);
      match call {
        case CallConfirmSend =>
          var r := app.StartConfirmSend();
          if r.Ok? { Go(t, CfCheck(r.value.0, r.value.1)); }
        case CallCancelTransfer =>
          var r := app.StartCancelTransfer();
          if r.Ok? { Go(t, CtFire(r.value)); }
      }
    }

    /** The arming section; a new attempt's object goes by the number of its reservation. */
    method ArmObject(t: Tid)
      modifies this`objects, this`pcs, this`taken, app`opBusy, app`cloneState
      ensures app.State() == BeginArm(old(app.State()), old(taken)).0
      ensures if old(app.opBusy).Some?
              then && objects == old(objects) && pcs == old(pcs) && taken == old(taken)
                   && app.cloneState == old(app.cloneState)
              else && app.cloneState != null && fresh(app.cloneState) && app.cloneState.id == old(taken)
                   && app.cloneState.View() == CloneRead(None, false, false) && taken == old(taken) + 1
                   && objects == old(objects)[old(taken) := app.cloneState]
                   && pcs == old(pcs)[t := ArOpening(old(taken))]
    {
      var r := app.StartArm(taken);
      if r.Ok? {
        objects := objects[taken := r.value];
        pcs := pcs[t := ArOpening(taken)];
        taken := taken + 1;
      }
    }

    method StartArmCall(t: Tid)
      requires Linked() && AttemptsLinked() && t !in pcs
      modifies this`pcs, this`taken, this`objects, this`model, app`opBusy, app`cloneState
      ensures Linked() && AttemptsLinked() && model == Land(StartClone(old(model), t, CallArm), t)
      ensures fresh(objects.Values - old(objects.Values))
    {
      model := Land(StartClone(model, t, CallArm), t);
      ArmObject(t);
    }

    method StartCancelCall(t: Tid)
      requires Linked() && AttemptsLinked() && t !in pcs
      modifies this`pcs, this`model, app`cloneState, objects.Values
      ensures Linked() && AttemptsLinked() && model == Land(StartClone(old(model), t, CallCancelClone), t)
    {
      model := Land(StartClone(model, t, CallCancelClone), t);
      var cs := app.cloneState;
      var r := app.StartCancelClone();
      if r.Ok? {
        Go(t, CnClose(cs.id, r.value));
      }
    }

    method StartReceiveCall(t: Tid)
      requires Linked() && AttemptsLinked() && t !in pcs
      modifies this`pcs, this`model
      ensures Linked() && AttemptsLinked() && model == Land(StartClone(old(model), t, CallReceive), t)
    {
      model := Land(StartClone(model, t, CallReceive), t);
      var r := app.StartReceive();
      if r.Ok? {
        Go(t, RcReceiving(r.value.id));
      }
    }

    // ---- the later steps

    method StepReservedCall(t: Tid, pc: Pc, out: Outcome)
      requires Linked() && t in pcs && pcs[t] == pc && IsReserved(pc)
      modifies this`pcs, this`bumps, this`nextPlan, this`model, app
      ensures Linked() && app.cloneState == old(app.cloneState)
      ensures model == Land(StepReserved(old(model), pc, out), t)
    {
      model := Land(StepReserved(model, pc, out), t);
      match pc {
        case RdReading(_, res) =>
          Go(t, if out.ok then RdStore(out.content, res) else OpRelease(res));
        case RdStore(cp, res) =>
          var before := app.workingRev;
          app.StoreRead(cp);
          Count(before);
          Go(t, OpRelease(res));
        case PsPreparing(session, copy, res) =>
          if out.ok {
            Go(t, PsStore(Plan(nextPlan, session, copy), res));
            nextPlan := nextPlan + 1;
          } else {
            Go(t, OpRelease(res));
          }
        case PsStore(plan, res) =>
          app.StorePrepared(plan);
          Go(t, OpRelease(res));
        case RsReading(_, res) =>
          Go(t, if out.ok then RsMerge(res) else OpRelease(res));
        case RsMerge(res) =>
          if app.working.Some? {
            var before := app.workingRev;
            app.StoreSettings(out.content);
            Count(before);
            Go(t, OpRelease(res));
          }
        case WsWriting(_, res) =>
          Go(t, OpRelease(res));
        case OpRelease(_) =>
          app.ReleaseOpLocked();
          Return(t);
      }
    }

    method StepFileCall(t: Tid, pc: Pc, out: Outcome)
      requires Linked() && t in pcs && pcs[t] == pc && IsFile(pc)
      modifies this`pcs, this`bumps, this`model, app
      ensures Linked() && app.cloneState == old(app.cloneState)
      ensures model == Land(StepFile(old(model), pc, out), t)
    {
      model := Land(StepFile(model, pc, out), t);
      var before := app.workingRev;
      match pc {
        case SvWriting(path, copy, rev, at) =>
          if out.ok { Go(t, SvFinish(path, copy, rev, at)); } else { Return(t); }
        case SvFinish(path, _, rev, _) =>
          app.StoreSaved(path, rev);
          Return(t);
        case LdLoading(path) =>
          if out.ok { Go(t, LdCommit(path, out.content)); } else { Return(t); }
        case LdCommit(path, cp) =>
          var refused := app.StoreLoaded(path, cp);
          Return(t);
        case ImParsing =>
          if out.ok { Go(t, ImMerge); } else { Return(t); }
        case ImMerge =>
          var refused := app.StoreImported(if out.ok then Some(out.content) else None);
          Return(t);
      }
      Count(before);
    }

    method StepConnectionCall(t: Tid, pc: Pc, out: Outcome)
      requires Linked() && t in pcs && pcs[t] == pc && IsConnection(pc)
      modifies this`pcs, this`nextSession, this`model, app`conn
      ensures Linked() && model == Land(StepConnection(old(model), t, pc, out), t)
    {
      model := Land(StepConnection(model, t, pc, out), t);
      match pc {
        case CoOpening =>
          if out.ok {
            Go(t, CoInstall(nextSession));
            nextSession := nextSession + 1;
          } else {
            Return(t);
          }
        case CoInstall(x) =>
          var installed := app.StoreConnection(x);
          if installed { Return(t); } else { Go(t, SessClose(x)); }
        case SessClose(_) =>
          Return(t);
      }
    }

    method StepSendCall(t: Tid, pc: Pc, out: Outcome)
      requires Linked() && t in pcs && pcs[t] == pc && IsSend(pc)
      modifies this`pcs, this`model, app`transfer, app`currentPlan, app`baselineStale
      ensures Linked() && model == Land(StepSend(old(model), pc, out), t)
    {
      model := Land(StepSend(model, pc, out), t);
      match pc {
        case CfCheck(conn, found) =>
          var refused := PreFlight(conn, found, out.ok);
          Go(t, if refused.Some? then CfRelease else CfArm(conn.value, found.value));
        case CfRelease =>
          app.ReleaseTransferLocked();
          Return(t);
        case CfArm(x, plan) =>
          app.StoreCancel(plan.id);
          Go(t, Executing(x, plan));
        case Executing(x, plan) =>
          Go(t, ExFinish(x, plan, out.ok));
        case ExFinish(_, _, touched) =>
          app.CompleteSend(touched);
          Return(t);
        case CtFire(_) =>
          Return(t);
      }
    }

    method StepOpeningCall(t: Tid, pc: Pc, out: Outcome)
      requires Linked() && AttemptsLinked() && t in pcs && pcs[t] == pc && (pc.ArOpening? || pc.ArArming?)
      modifies this`pcs, this`nextPort, this`model
      ensures Linked() && AttemptsLinked() && model == Land(StepOpening(old(model), pc, out), t)
    {
      model := Land(StepOpening(model, pc, out), t);
      match pc {
        case ArOpening(c) =>
          if out.ok {
            Go(t, ArPublish(c, nextPort));
            nextPort := nextPort + 1;
          } else {
            Go(t, ArAbandon(c));
          }
        case ArArming(c, p) =>
          Go(t, if out.ok then ArReception(c, p) else ArFailed(c, p));
      }
    }

    method PublishPortCall(t: Tid, c: nat, p: Port, out: Outcome)
      requires Linked() && AttemptsLinked() && t in pcs && pcs[t] == ArPublish(c, p)
      modifies this`pcs, this`model, objects.Values
      ensures Linked() && AttemptsLinked() && model == Land(StepOpening(old(model), ArPublish(c, p), out), t)
    {
      model := Land(StepOpening(model, ArPublish(c, p), out), t);
      if c in objects {
        var published := objects[c].PublishClonePort(p);
        Go(t, if published then ArArming(c, p) else ArClose(c, p));
      }
    }

    method PublishReceptionCall(t: Tid, c: nat, p: Port, out: Outcome)
      requires Linked() && AttemptsLinked() && t in pcs && pcs[t] == ArReception(c, p)
      modifies this`pcs, this`model, objects.Values
      ensures Linked() && AttemptsLinked() && model == Land(StepOpening(old(model), ArReception(c, p), out), t)
    {
      model := Land(StepOpening(model, ArReception(c, p), out), t);
      if c in objects {
        var published := objects[c].PublishCloneReception();
        if published {
          Return(t);
        } else {
          Go(t, ArClose(c, p));
        }
      }
    }

    method StepUnwindingCall(t: Tid, pc: Pc)
      requires Linked() && AttemptsLinked() && t in pcs && pcs[t] == pc && IsUnwinding(pc)
      modifies this`pcs, this`model, app`cloneState
      ensures Linked() && AttemptsLinked() && model == Land(StepUnwinding(old(model), t, pc), t)
    {
      model := Land(StepUnwinding(model, t, pc), t);
      match pc {
        case ArFailed(c, _) =>
          Go(t, ArAbandon(c));
        case ArAbandon(c) =>
          if c in objects {
            var mustRelease := app.AbandonCloneArm(objects[c]);
            if mustRelease { Go(t, OpRelease(c)); } else { Return(t); }
          }
        case ArClose(_, _) =>
          Return(t);
      }
    }

    method StepCloneCall(t: Tid, pc: Pc, out: Outcome)
      requires Linked() && AttemptsLinked() && t in pcs && pcs[t] == pc && IsClone(pc)
      modifies this`pcs, this`bumps, this`model, app
      ensures Linked() && AttemptsLinked() && model == Land(StepClone(old(model), pc, out), t)
    {
      model := Land(StepClone(model, pc, out), t);
      match pc {
        case CnClose(c, _) =>
          Go(t, OpRelease(c));
        case RcReceiving(c) =>
          Go(t, if out.ok then RcStore(c, out.content) else RcClose(c));
        case RcStore(c, cp) =>
          var before := app.workingRev;
          app.StoreRead(cp);
          Count(before);
          Go(t, RcClose(c));
        case RcClose(c) =>
          if c in objects && objects[c].port.Some? {
            Go(t, RcClear(c));
          }
        case RcClear(c) =>
          app.ClearReceived();
          Go(t, OpRelease(c));
      }
    }

    // ---- one event, whatever it is

    twostate predicate AttemptsUntouched()
      reads this, app
    {
      && objects == old(objects) && app.cloneState == old(app.cloneState)
      && model.attempts == old(model.attempts) && old(taken) <= taken
    }

    twostate lemma AttemptsStayLinked()
      requires old(AttemptsLinked()) && AttemptsUntouched() && unchanged(objects.Values)
      ensures AttemptsLinked()
    {
    }

    method StartUnreserved(t: Tid, call: Call)
      requires Linked() && t !in pcs && !CloneCall(call) && !ReservedCall(call)
      modifies this`pcs, this`bumps, this`model, app
      ensures Linked() && app.cloneState == old(app.cloneState) && model == Land(StartCall(old(model), t, call), t)
    {
      if FileCall(call) {
        StartFileCall(t, call);
      } else if ConnectionCall(call) {
        StartConnectionCall(t, call);
      } else {
        StartSendCall(t, call);
      }
    }

    /** A call that is not a clone-mode one begins. */
    method StartOther(t: Tid, call: Call)
      requires Linked() && t !in pcs && !CloneCall(call)
      modifies this, app
      ensures Linked() && AttemptsUntouched() && model == Land(StartCall(old(model), t, call), t)
    {
      StartKeepsAttempts(model, t, call);
      if ReservedCall(call) {
        StartReservedCall(t, call);
      } else {
        StartUnreserved(t, call);
      }
    }

    method StartCloneCall(t: Tid, call: Call)
      requires Linked() && AttemptsLinked() && t !in pcs && CloneCall(call)
      modifies this, app, objects.Values
      ensures Linked() && AttemptsLinked() && model == Land(StartClone(old(model), t, call), t)
      ensures fresh(objects.Values - old(objects.Values))
    {
      match call {
        case CallArm => StartArmCall(t);
        case CallCancelClone => StartCancelCall(t);
        case CallReceive => StartReceiveCall(t);
      }
    }

    method StartAny(t: Tid, call: Call)
      requires Linked() && AttemptsLinked() && t !in pcs
      modifies this, app, objects.Values
      ensures Linked() && AttemptsLinked() && model == Land(StartCall(old(model), t, call), t)
      ensures fresh(objects.Values - old(objects.Values))
    {
      if CloneCall(call) {
        StartCloneCall(t, call);
      } else {
        StartOther(t, call);
        AttemptsStayLinked();
      }
    }

    /** A call that is not in a clone-mode method goes on. */
    method StepOther(t: Tid, out: Outcome)
      requires Linked() && t in pcs && !OnClone(Some(pcs[t]))
      modifies this, app
      ensures Linked() && AttemptsUntouched() && model == Land(Step(old(model), t, out), t)
    {
      StepNotCloning(model, t, out);
      var pc := pcs[t];
      if IsReserved(pc) {
        StepReservedCall(t, pc, out);
      } else if IsFile(pc) {
        StepFileCall(t, pc, out);
      } else if IsConnection(pc) {
        StepConnectionCall(t, pc, out);
      } else {
        StepSendCall(t, pc, out);
      }
    }

    method StepAnyOpening(t: Tid, pc: Pc, out: Outcome)
      requires Linked() && AttemptsLinked() && t in pcs && pcs[t] == pc && IsOpening(pc)
      modifies this`pcs, this`nextPort, this`model, objects.Values
      ensures Linked() && AttemptsLinked() && model == Land(StepOpening(old(model), pc, out), t)
    {
      if pc.ArPublish? {
        PublishPortCall(t, pc.c, pc.port, out);
      } else if pc.ArReception? {
        PublishReceptionCall(t, pc.c, pc.port, out);
      } else {
        StepOpeningCall(t, pc, out);
      }
    }

    method StepCloning(t: Tid, out: Outcome)
      requires Linked() && AttemptsLinked() && t in pcs && OnClone(Some(pcs[t]))
      modifies this`pcs, this`bumps, this`nextPort, this`model, app, objects.Values
      ensures Linked() && AttemptsLinked() && model == Land(Step(old(model), t, out), t)
    {
      CloningStep(model, t, out);
      var pc := pcs[t];
      if IsClone(pc) {
        StepCloneCall(t, pc, out);
      } else if IsOpening(pc) {
        StepAnyOpening(t, pc, out);
      } else {
        StepUnwindingCall(t, pc);
      }
    }

    method StepAny(t: Tid, out: Outcome)
      requires Linked() && AttemptsLinked() && t in pcs
      modifies this, app, objects.Values
      ensures Linked() && AttemptsLinked() && model == Land(Step(old(model), t, out), t)
      ensures objects == old(objects)
    {
      if OnClone(Some(pcs[t])) {
        StepCloning(t, out);
      } else {
        StepOther(t, out);
        AttemptsStayLinked();
      }
    }

    /** The objects do what the model does, for any event a call can make. */
    method Perform(e: Event)
      requires Linked() && AttemptsLinked() && Enabled(model, e)
      modifies this, app, objects.Values
      ensures Linked() && AttemptsLinked() && model == Apply(old(model), e)
      ensures fresh(objects.Values - old(objects.Values))
    {
      match e {
        case Start(t, call) => StartAny(t, call);
        case Advance(t, out) => StepAny(t, out);
      }
    }

    /** Whatever schedule the calls are interleaved by, the objects end in the state the model reaches. */
    method PerformAll(es: seq<Event>)
      requires Linked() && AttemptsLinked() && Schedule(model, es)
      modifies this, app, objects.Values
      ensures Linked() && AttemptsLinked() && model == Reached(old(model), es)
      ensures fresh(objects.Values - old(objects.Values))
    {
      var i := 0;
      while i < |es|
        invariant 0 <= i <= |es| && Linked() && AttemptsLinked() && fresh(objects.Values - old(objects.Values))
        invariant Schedule(model, es[i..]) && Reached(model, es[i..]) == Reached(old(model), es)
      {
        assert es[i..][1..] == es[i + 1..];
        Perform(es[i]);
        i := i + 1;
      }
    }
  }
}

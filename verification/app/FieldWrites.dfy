/**
 The guarded fields one at a time: which events of a call write each of them, and
 what, whatever the section the write is part of.
 */
module FieldWrites {
  import opened Results
  import opened AppSections
  import opened Protocol

  /** Nothing is reserved and no send is running. */
  predicate Idle(a: App) {
    a.opBusy.None? && !a.transfer.running
  }

  /** What a call does next: begin, or go on from where it is. */
  datatype Doing = Begin(call: Call) | Leave(pc: Pc, out: Outcome)

  function DoingOf(s: Sys, e: Event): Doing
    requires Enabled(s, e)
  {
    match e
    case Start(_, call) => Begin(call)
    case Advance(t, out) => Leave(s.pcs[t], out)
  }

  predicate FromRadio(d: Doing) {
    d.Leave? && (d.pc.RdStore? || d.pc.RcStore?)
  }

  /** A whole codeplug that arrives, and the path it then goes by. */
  function Loaded(a: App, d: Doing): Option<(Content, Path)> {
    if FromRadio(d) then Some((d.pc.cp, ""))
    else if d.Leave? && d.pc.LdCommit? && Idle(a) then Some((d.pc.cp, d.pc.path))
    else None
  }

  /** A change, by edit, import or the radio's settings, to what is already there. */
  function Amended(a: App, d: Doing): Option<Content> {
    if a.working.None? then None
    else if d.Begin? then if d.call.CallEdit? && Idle(a) then d.call.edited else None
    else if d.pc.RsMerge? || (d.pc.ImMerge? && d.out.ok && Idle(a)) then Some(d.out.content)
    else None
  }

  function WorkingAfter(a: App, d: Doing): Option<Content> {
    if Loaded(a, d).Some? then Some(Loaded(a, d).value.0)
    else if Amended(a, d).Some? then Amended(a, d)
    else a.working
  }

  function RevAfter(a: App, d: Doing): nat {
    if Loaded(a, d).Some? || Amended(a, d).Some? then NextRev(a.workingRev) else a.workingRev
  }

  predicate Saves(d: Doing) {
    d.Leave? && d.pc.SvFinish?
  }

  function PathAfter(a: App, d: Doing): Path {
    if Loaded(a, d).Some? then Loaded(a, d).value.1
    else if Saves(d) then d.pc.path
    else a.workingPath
  }

  predicate DirtyAfter(a: App, d: Doing) {
    if Loaded(a, d).Some? then false
    else if Amended(a, d).Some? then true
    else a.dirty && !(Saves(d) && d.pc.rev == a.workingRev)
  }

  predicate StaleAfter(a: App, d: Doing) {
    !FromRadio(d) && (a.baselineStale || (d.Leave? && d.pc.ExFinish? && d.pc.touched))
  }

  ghost predicate ContentWritten(a: App, d: Doing, b: App) {
    && b.working == WorkingAfter(a, d) && b.workingRev == RevAfter(a, d) && b.workingPath == PathAfter(a, d)
    && b.dirty == DirtyAfter(a, d) && b.baselineStale == StaleAfter(a, d)
    && b.baseline == if FromRadio(d) then Some(d.pc.cp) else a.baseline
  }

  predicate Disconnects(a: App, d: Doing) {
    d.Begin? && d.call.CallDisconnect? && Idle(a)
  }

  function ConnAfter(a: App, d: Doing): Option<Session> {
    if Disconnects(a, d) then None
    else if d.Leave? && d.pc.CoInstall? && a.conn.None? then Some(d.pc.session)
    else a.conn
  }

  function PlanAfter(a: App, d: Doing): Option<Plan> {
    if Disconnects(a, d) || (d.Leave? && d.pc.ExFinish?) then None
    else if d.Leave? && d.pc.PsStore? then Some(d.pc.plan)
    else a.currentPlan
  }

  function TransferAfter(a: App, d: Doing): Transfer {
    if d.Begin? then if d.call.CallConfirmSend? && Idle(a) then Transfer(true, None) else a.transfer
    else if d.pc.CfArm? then Transfer(true, Some(d.pc.plan.id))
    else if d.pc.CfRelease? || d.pc.ExFinish? then Transfer(false, None)
    else a.transfer
  }

  /** What a call reserves before its slow work, if it gets that far. */
  function Reserves(a: App, call: Call): Option<Operation> {
    match call
    case CallReadRadio => if a.conn.Some? then Some(ReadRadioOp) else None
    case CallPrepareSend =>
      if a.conn.Some? && a.working.Some? && !a.transfer.running then Some(PrepareSendOp) else None
    case CallReadSettings => if a.conn.Some? && a.working.Some? then Some(ReadSettingsOp) else None
    case CallWriteSetting => if a.conn.Some? then Some(WriteSettingOp) else None
    case CallArm => Some(ArmCloneOp)
    case _ => None
  }

  function OpBusyAfter(a: App, d: Doing): Option<Operation> {
    if d.Leave? && d.pc.OpRelease? then None
    else if d.Begin? && a.opBusy.None? then Reserves(a, d.call)
    else a.opBusy
  }

  predicate Attempted(s: Sys, c: nat) {
    c in s.attempts && !s.attempts[c].read.cancelled
  }

  function CloneStateAfter(s: Sys, d: Doing): Option<nat> {
    if d.Begin? then
      if d.call.CallArm? && s.app.opBusy.None? then Some(s.taken)
      else if d.call.CallCancelClone? && s.app.cloneState.Some? && s.app.cloneState.value in s.attempts then None
      else s.app.cloneState
    else if d.pc.RcClear? || (d.pc.ArAbandon? && Attempted(s, d.pc.c)) then None
    else s.app.cloneState
  }

  ghost predicate AccessWritten(s: Sys, d: Doing, b: App) {
    && b.conn == ConnAfter(s.app, d) && b.currentPlan == PlanAfter(s.app, d) && b.transfer == TransferAfter(s.app, d)
    && b.opBusy == OpBusyAfter(s.app, d) && b.cloneState == CloneStateAfter(s, d)
  }

  ghost predicate Written(s: Sys, d: Doing, b: App) {
    ContentWritten(s.app, d, b) && AccessWritten(s, d, b)
  }

  // ---- group by group

  /** The section that opens a call with a reservation. */
  function Opened(a: App, call: Call): App
    requires ReservedCall(call)
  {
    match call
    case CallReadRadio => BeginReadRadio(a).0
    case CallPrepareSend => BeginPrepareSend(a).0
    case CallReadSettings => BeginReadSettings(a).0
    case CallWriteSetting => BeginWriteSetting(a).0
  }

  lemma OpenedReserves(a: App, call: Call)
    requires ReservedCall(call)
    ensures Opened(a, call) == a.(opBusy := if a.opBusy.None? then Reserves(a, call) else a.opBusy)
  {
  }

  lemma StartIsOpened(s: Sys, t: Tid, call: Call)
    requires ReservedCall(call)
    ensures StartReserved(s, t, call).sys.app == Opened(s.app, call)
  {
  }

  lemma StartReservedWrites(s: Sys, t: Tid, call: Call)
    requires ReservedCall(call)
    ensures Written(s, Begin(call), StartReserved(s, t, call).sys.app)
  {
    StartIsOpened(s, t, call);
    OpenedReserves(s.app, call);
  }

  lemma StartFileWrites(s: Sys, call: Call)
    requires FileCall(call)
    ensures Written(s, Begin(call), StartFile(s, call).sys.app)
  {
  }

  lemma StartConnectionTouches(s: Sys, t: Tid, call: Call)
    requires ConnectionCall(call)
    ensures StartConnection(s, t, call).sys.app ==
            s.app.(conn := ConnAfter(s.app, Begin(call)), currentPlan := PlanAfter(s.app, Begin(call)))
  {
  }

  lemma StartConnectionWrites(s: Sys, t: Tid, call: Call)
    requires ConnectionCall(call)
    ensures Written(s, Begin(call), StartConnection(s, t, call).sys.app)
  {
    StartConnectionTouches(s, t, call);
  }

  lemma StartSendTouches(s: Sys, t: Tid, call: Call)
    requires SendCall(call)
    ensures StartSend(s, t, call).sys.app == s.app.(transfer := TransferAfter(s.app, Begin(call)))
  {
  }

  lemma StartSendWrites(s: Sys, t: Tid, call: Call)
    requires SendCall(call)
    ensures Written(s, Begin(call), StartSend(s, t, call).sys.app)
  {
    StartSendTouches(s, t, call);
  }

  lemma StartCloneTouches(s: Sys, t: Tid, call: Call)
    requires CloneCall(call)
    ensures StartClone(s, t, call).sys.app ==
            s.app.(opBusy := OpBusyAfter(s.app, Begin(call)), cloneState := CloneStateAfter(s, Begin(call)))
  {
  }

  lemma StartCloneWrites(s: Sys, t: Tid, call: Call)
    requires CloneCall(call)
    ensures Written(s, Begin(call), StartClone(s, t, call).sys.app)
  {
    StartCloneTouches(s, t, call);
  }

  lemma StepReservedWrites(s: Sys, pc: Pc, out: Outcome)
    requires IsReserved(pc)
    ensures Written(s, Leave(pc, out), StepReserved(s, pc, out).sys.app)
  {
  }

  lemma StepFileWrites(s: Sys, pc: Pc, out: Outcome)
    requires IsFile(pc)
    ensures Written(s, Leave(pc, out), StepFile(s, pc, out).sys.app)
  {
  }

  lemma StepConnectionTouches(s: Sys, t: Tid, pc: Pc, out: Outcome)
    requires IsConnection(pc)
    ensures StepConnection(s, t, pc, out).sys.app == s.app.(conn := ConnAfter(s.app, Leave(pc, out)))
  {
  }

  lemma StepConnectionWrites(s: Sys, t: Tid, pc: Pc, out: Outcome)
    requires IsConnection(pc)
    ensures Written(s, Leave(pc, out), StepConnection(s, t, pc, out).sys.app)
  {
    StepConnectionTouches(s, t, pc, out);
  }

  lemma StepSendWrites(s: Sys, pc: Pc, out: Outcome)
    requires IsSend(pc)
    ensures Written(s, Leave(pc, out), StepSend(s, pc, out).sys.app)
  {
  }

  lemma StepCloneWrites(s: Sys, pc: Pc, out: Outcome)
    requires IsClone(pc)
    ensures Written(s, Leave(pc, out), StepClone(s, pc, out).sys.app)
  {
  }

  lemma StepOpeningWrites(s: Sys, pc: Pc, out: Outcome)
    requires IsOpening(pc)
    ensures Written(s, Leave(pc, out), StepOpening(s, pc, out).sys.app)
  {
  }

  lemma StepUnwindingTouches(s: Sys, t: Tid, pc: Pc, out: Outcome)
    requires IsUnwinding(pc)
    ensures StepUnwinding(s, t, pc).sys.app == s.app.(cloneState := CloneStateAfter(s, Leave(pc, out)))
  {
  }

  lemma StepUnwindingWrites(s: Sys, t: Tid, pc: Pc, out: Outcome)
    requires IsUnwinding(pc)
    ensures Written(s, Leave(pc, out), StepUnwinding(s, t, pc).sys.app)
  {
    StepUnwindingTouches(s, t, pc, out);
  }

  /** For any event in any state, each field ends as its own writers, and nobody else, leave it. */
  lemma EachFieldIsWritten(s: Sys, e: Event)
    requires Enabled(s, e)
    ensures Written(s, DoingOf(s, e), Apply(s, e).app)
  {
    match e
    case Start(t, call) =>
      if ReservedCall(call) { StartReservedWrites(s, t, call); }
      else if FileCall(call) { StartFileWrites(s, call); }
      else if ConnectionCall(call) { StartConnectionWrites(s, t, call); }
      else if SendCall(call) { StartSendWrites(s, t, call); }
      else { StartCloneWrites(s, t, call); }
    case Advance(t, out) =>
      var pc := s.pcs[t];
      if IsReserved(pc) { StepReservedWrites(s, pc, out); }
      else if IsFile(pc) { StepFileWrites(s, pc, out); }
      else if IsConnection(pc) { StepConnectionWrites(s, t, pc, out); }
      else if IsSend(pc) { StepSendWrites(s, pc, out); }
      else if IsClone(pc) { StepCloneWrites(s, pc, out); }
      else if IsOpening(pc) { StepOpeningWrites(s, pc, out); }
      else { StepUnwindingWrites(s, t, pc, out); }
  }
}

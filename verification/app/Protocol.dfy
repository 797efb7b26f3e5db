/**
 The controller as a concurrent system: any number of calls in progress, each at
 a program counter between two of its critical sections, interleaved one section
 (or one piece of slow work) at a time.

 `Sys` holds the controller's fields, the clone-mode attempts, one program
 counter per call in progress and, beside them, a record of what has happened:
 reservations taken and released, sessions opened and closed, plans executed,
 ports opened and closed.  The record is never read by the controller's code.
 */
module Protocol {
  import opened Results
  import opened AppSections

  type Tid = nat

  datatype Call =
    | CallReadRadio
    | CallPrepareSend
    | CallReadSettings
    | CallWriteSetting
    | CallSave(path: Path)
    | CallLoad(path: Path)
    | CallEdit(edited: Option<Content>)
    | CallImport
    | CallConnect
    | CallDisconnect
    | CallConfirmSend
    | CallCancelTransfer
    | CallArm
    | CallCancelClone
    | CallReceive

  /** Where a call is: `res` is the reservation the call must release. */
  datatype Pc =
    | RdReading(session: Session, res: nat)
    | RdStore(cp: Content, res: nat)
    | PsPreparing(session: Session, copy: Content, res: nat)
    | PsStore(plan: Plan, res: nat)
    | RsReading(session: Session, res: nat)
    | RsMerge(res: nat)
    | WsWriting(session: Session, res: nat)
    | OpRelease(res: nat)
    | SvWriting(path: Path, copy: Content, rev: nat, at: nat)
    | SvFinish(path: Path, copy: Content, rev: nat, at: nat)
    | LdLoading(path: Path)
    | LdCommit(path: Path, cp: Content)
    | ImParsing
    | ImMerge
    | CoOpening
    | CoInstall(session: Session)
    | SessClose(session: Session)
    | CfCheck(conn: Option<Session>, found: Option<Plan>)
    | CfRelease
    | CfArm(session: Session, plan: Plan)
    | Executing(session: Session, plan: Plan)
    | ExFinish(session: Session, plan: Plan, touched: bool)
    | CtFire(planId: nat)
    | ArOpening(c: nat)
    | ArPublish(c: nat, port: Port)
    | ArArming(c: nat, port: Port)
    | ArReception(c: nat, port: Port)
    | ArFailed(c: nat, port: Port)
    | ArAbandon(c: nat)
    | ArClose(c: nat, port: Port)
    | CnClose(c: nat, handle: Option<Port>)
    | RcReceiving(c: nat)
    | RcStore(c: nat, cp: Content)
    | RcClose(c: nat)
    | RcClear(c: nat)

  /** What slow work comes back with; both parts are arbitrary. */
  datatype Outcome = Outcome(ok: bool, content: Content)

  datatype Event = Start(t: Tid, call: Call) | Advance(t: Tid, out: Outcome)

  datatype Attempt = Attempt(read: CloneRead, armer: Tid)

  /** Who is answerable for releasing the reservation now held. */
  datatype Claimant = ByThread(t: Tid) | ByAttempt(c: nat)

  datatype OpEvent = Reserved(id: nat) | Released(id: nat)

  datatype Place = InCall(t: Tid) | Current | Closed

  datatype Sys = Sys(
    app: App,
    attempts: map<nat, Attempt>,
    pcs: map<Tid, Pc>,
    // the record
    taken: nat,
    holder: Option<Claimant>,
    log: seq<OpEvent>,
    sender: Option<Tid>,
    bumps: nat,
    settled: set<Content>,
    sessions: map<Session, Place>,
    nextSession: Session,
    closes: multiset<Session>,
    nextPlan: nat,
    executed: seq<nat>,
    ports: map<Port, nat>,
    nextPort: Port,
    closedPorts: set<Port>)

  const INIT := Sys(NewApp(), map[], map[], 0, None, [], None, 0, {}, map[], 0, multiset{}, 0, [], map[], 0, {})

  // ---- small moves

  function SetApp(s: Sys, a: App): Sys {
    s.(app := a, bumps := s.bumps + if a.workingRev != s.app.workingRev then 1 else 0)
  }

  /** A move of one call: everything but its program counter, and where it goes next. */
  datatype Moved = Moved(sys: Sys, next: Option<Pc>)

  function To(s: Sys, pc: Pc): Moved {
    Moved(s, Some(pc))
  }

  /** The call returns. */
  function Done(s: Sys): Moved {
    Moved(s, None)
  }

  function Land(m: Moved, t: Tid): Sys {
    m.sys.(pcs := if m.next.Some? then m.sys.pcs[t := m.next.value] else m.sys.pcs - {t})
  }

  function Take(s: Sys, who: Claimant): Sys {
    s.(taken := s.taken + 1, holder := Some(who), log := s.log + [Reserved(s.taken)])
  }

  function Settle(s: Sys, cp: Content): Sys {
    s.(settled := s.settled + {cp})
  }

  // ---- the first section of each call

  predicate ReservedCall(call: Call) {
    call.CallReadRadio? || call.CallPrepareSend? || call.CallReadSettings? || call.CallWriteSetting?
  }

  predicate FileCall(call: Call) {
    call.CallSave? || call.CallLoad? || call.CallEdit? || call.CallImport?
  }

  predicate ConnectionCall(call: Call) {
    call.CallConnect? || call.CallDisconnect?
  }

  predicate SendCall(call: Call) {
    call.CallConfirmSend? || call.CallCancelTransfer?
  }

  predicate CloneCall(call: Call) {
    call.CallArm? || call.CallCancelClone? || call.CallReceive?
  }

  function StartReserved(s: Sys, t: Tid, call: Call): Moved
    requires ReservedCall(call)
  {
    match call
    case CallReadRadio =>
      var (a, r) := BeginReadRadio(s.app);
      if r.Err? then Done(s) else To(Take(SetApp(s, a), ByThread(t)), RdReading(r.value, s.taken))
    case CallPrepareSend =>
      var (a, r) := BeginPrepareSend(s.app);
      if r.Err? then Done(s) else To(Take(SetApp(s, a), ByThread(t)), PsPreparing(r.value.0, r.value.1, s.taken))
    case CallReadSettings =>
      var (a, r) := BeginReadSettings(s.app);
      if r.Err? then Done(s) else To(Take(SetApp(s, a), ByThread(t)), RsReading(r.value, s.taken))
    case CallWriteSetting =>
      var (a, r) := BeginWriteSetting(s.app);
      if r.Err? then Done(s) else To(Take(SetApp(s, a), ByThread(t)), WsWriting(r.value, s.taken))
  }

  function StartFile(s: Sys, call: Call): Moved
    requires FileCall(call)
  {
    match call
    case CallSave(path) =>
      var r := BeginSave(s.app, path);
      if r.Err? then Done(s) else To(s, SvWriting(path, r.value.0, r.value.1, s.bumps))
    case CallLoad(path) =>
      if CheckNotBusy(s.app).Some? then Done(s) else To(s, LdLoading(path))
    case CallEdit(edited) =>
      Done(SetApp(s, ApplyEdits(s.app, edited).0))
    case CallImport =>
      if BeginImport(s.app).Some? then Done(s) else To(s, ImParsing)
  }

  function StartConnection(s: Sys, t: Tid, call: Call): Moved
    requires ConnectionCall(call)
  {
    match call
    case CallConnect =>
      if BeginConnect(s.app).Some? then Done(s) else To(s, CoOpening)
    case CallDisconnect =>
      var (a, r) := BeginDisconnect(s.app);
      if r.Err? then Done(SetApp(s, a))
      else To(SetApp(s, a).(sessions := s.sessions[r.value := InCall(t)]), SessClose(r.value))
  }

  function StartSend(s: Sys, t: Tid, call: Call): Moved
    requires SendCall(call)
  {
    match call
    case CallConfirmSend =>
      var (a, r) := BeginConfirmSend(s.app);
      if r.Err? then Done(s) else To(SetApp(s, a).(sender := Some(t)), CfCheck(r.value.0, r.value.1))
    case CallCancelTransfer =>
      var r := BeginCancelTransfer(s.app);
      if r.Err? then Done(s) else To(s, CtFire(r.value))
  }

  function StartClone(s: Sys, t: Tid, call: Call): Moved
    requires CloneCall(call)
  {
    match call
    case CallArm =>
      var (a, busy) := BeginArm(s.app, s.taken);
      if busy.Some? then Done(s)
      else To(Take(SetApp(s, a), ByAttempt(s.taken)).(
              attempts := s.attempts[s.taken := Attempt(CloneRead(None, false, false), t)]), ArOpening(s.taken))
    case CallCancelClone =>
      if s.app.cloneState.None? || s.app.cloneState.value !in s.attempts then Done(s)
      else
        var c := s.app.cloneState.value;
        var at := s.attempts[c];
        To(SetApp(s, ClearCloneState(s.app)).(
           attempts := s.attempts[c := at.(read := at.read.(cancelled := true))],
           holder := Some(ByThread(t))), CnClose(c, at.read.port))
    case CallReceive =>
      if s.app.cloneState.None? then Done(s)
      else To(s.(holder := Some(ByThread(t))), RcReceiving(s.app.cloneState.value))
  }

  function StartCall(s: Sys, t: Tid, call: Call): Moved {
    if ReservedCall(call) then StartReserved(s, t, call)
    else if FileCall(call) then StartFile(s, call)
    else if ConnectionCall(call) then StartConnection(s, t, call)
    else if SendCall(call) then StartSend(s, t, call)
    else StartClone(s, t, call)
  }

  // ---- the later steps, by program counter

  predicate IsReserved(pc: Pc) {
    || pc.RdReading? || pc.RdStore? || pc.PsPreparing? || pc.PsStore?
    || pc.RsReading? || pc.RsMerge? || pc.WsWriting? || pc.OpRelease?
  }

  predicate IsFile(pc: Pc) {
    pc.SvWriting? || pc.SvFinish? || pc.LdLoading? || pc.LdCommit? || pc.ImParsing? || pc.ImMerge?
  }

  predicate IsConnection(pc: Pc) {
    pc.CoOpening? || pc.CoInstall? || pc.SessClose?
  }

  predicate IsSend(pc: Pc) {
    pc.CfCheck? || pc.CfRelease? || pc.CfArm? || pc.Executing? || pc.ExFinish? || pc.CtFire?
  }

  predicate IsOpening(pc: Pc) {
    pc.ArOpening? || pc.ArPublish? || pc.ArArming? || pc.ArReception?
  }

  predicate IsUnwinding(pc: Pc) {
    pc.ArFailed? || pc.ArAbandon? || pc.ArClose?
  }

  predicate IsClone(pc: Pc) {
    pc.CnClose? || pc.RcReceiving? || pc.RcStore? || pc.RcClose? || pc.RcClear?
  }

  function StepReserved(s: Sys, pc: Pc, out: Outcome): Moved
    requires IsReserved(pc)
  {
    match pc
    case RdReading(_, res) =>
      if out.ok then To(Settle(s, out.content), RdStore(out.content, res)) else To(s, OpRelease(res))
    case RdStore(cp, res) =>
      To(SetApp(s, StoreFromRadio(s.app, cp)), OpRelease(res))
    case PsPreparing(session, copy, res) =>
      if out.ok then To(s.(nextPlan := s.nextPlan + 1), PsStore(Plan(s.nextPlan, session, copy), res))
      else To(s, OpRelease(res))
    case PsStore(plan, res) =>
      To(SetApp(s, StorePlan(s.app, plan)), OpRelease(res))
    case RsReading(_, res) =>
      if out.ok then To(s, RsMerge(res)) else To(s, OpRelease(res))
    case RsMerge(res) =>
      // With no working copy the section would dereference nil and go no further.
      if s.app.working.None? then To(s, pc)
      else To(SetApp(s, MergeSettings(s.app, out.content)), OpRelease(res))
    case WsWriting(_, res) =>
      To(s, OpRelease(res))
    case OpRelease(res) =>
      Done(SetApp(s, ReleaseOp(s.app)).(holder := None, log := s.log + [Released(res)]))
  }

  function StepFile(s: Sys, pc: Pc, out: Outcome): Moved
    requires IsFile(pc)
  {
    match pc
    case SvWriting(path, copy, rev, at) =>
      if out.ok then To(Settle(s, copy), SvFinish(path, copy, rev, at)) else Done(s)
    case SvFinish(path, _, rev, _) =>
      Done(SetApp(s, FinishSave(s.app, path, rev)))
    case LdLoading(path) =>
      if out.ok then To(Settle(s, out.content), LdCommit(path, out.content)) else Done(s)
    case LdCommit(path, cp) =>
      Done(SetApp(s, CommitLoad(s.app, path, cp).0))
    case ImParsing =>
      if out.ok then To(s, ImMerge) else Done(s)
    case ImMerge =>
      Done(SetApp(s, MergeImport(s.app, if out.ok then Some(out.content) else None).0))
  }

  function StepConnection(s: Sys, t: Tid, pc: Pc, out: Outcome): Moved
    requires IsConnection(pc)
  {
    match pc
    case CoOpening =>
      if out.ok then
        To(s.(sessions := s.sessions[s.nextSession := InCall(t)], nextSession := s.nextSession + 1),
           CoInstall(s.nextSession))
      else Done(s)
    case CoInstall(x) =>
      var (a, installed) := InstallSession(s.app, x);
      if installed then Done(SetApp(s, a).(sessions := s.sessions[x := Current])) else To(s, SessClose(x))
    case SessClose(x) =>
      Done(s.(sessions := s.sessions[x := Closed], closes := s.closes + multiset{x}))
  }

  function StepSend(s: Sys, pc: Pc, out: Outcome): Moved
    requires IsSend(pc)
  {
    match pc
    case CfCheck(conn, found) =>
      if PreFlight(conn, found, out.ok).Some? then To(s, CfRelease) else To(s, CfArm(conn.value, found.value))
    case CfRelease =>
      Done(SetApp(s, ReleaseTransfer(s.app)).(sender := None))
    case CfArm(x, plan) =>
      To(SetApp(s, ArmTransfer(s.app, plan.id)).(executed := s.executed + [plan.id]), Executing(x, plan))
    case Executing(x, plan) =>
      To(s, ExFinish(x, plan, out.ok))
    case ExFinish(_, _, touched) =>
      Done(SetApp(s, FinishSend(s.app, touched)).(sender := None))
    case CtFire(_) =>
      Done(s)
  }

  predicate Arming(pc: Pc, c: nat) {
    (pc.ArOpening? || pc.ArPublish? || pc.ArArming? || pc.ArReception? || pc.ArFailed? || pc.ArAbandon?) && pc.c == c
  }

  predicate Receiving(pc: Pc, c: nat) {
    (pc.RcReceiving? || pc.RcStore? || pc.RcClose? || pc.RcClear?) && pc.c == c
  }

  /** A step on an attempt that does not exist would be a nil dereference: nothing follows it. */
  function StepOpening(s: Sys, pc: Pc, out: Outcome): Moved
    requires IsOpening(pc)
  {
    match pc
    case ArOpening(c) =>
      if out.ok then To(s.(ports := s.ports[s.nextPort := c], nextPort := s.nextPort + 1), ArPublish(c, s.nextPort))
      else To(s, ArAbandon(c))
    case ArPublish(c, p) =>
      if c !in s.attempts then To(s, pc)
      else
        var (r, published) := PublishPort(s.attempts[c].read, p);
        if published then To(s.(attempts := s.attempts[c := s.attempts[c].(read := r)]), ArArming(c, p))
        else To(s, ArClose(c, p))
    case ArArming(c, p) =>
      if out.ok then To(s, ArReception(c, p)) else To(s, ArFailed(c, p))
    case ArReception(c, p) =>
      if c !in s.attempts then To(s, pc)
      else
        var (r, published) := PublishReception(s.attempts[c].read);
        if published then Done(s.(attempts := s.attempts[c := s.attempts[c].(read := r)]))
        else To(s, ArClose(c, p))
  }

  function StepUnwinding(s: Sys, t: Tid, pc: Pc): Moved
    requires IsUnwinding(pc)
  {
    match pc
    case ArFailed(c, p) =>
      To(s.(closedPorts := s.closedPorts + {p}), ArAbandon(c))
    case ArAbandon(c) =>
      if c !in s.attempts then To(s, pc)
      else
        var (a, mustRelease) := AbandonArm(s.app, s.attempts[c].read);
        if mustRelease then To(SetApp(s, a).(holder := Some(ByThread(t))), OpRelease(c)) else Done(s)
    case ArClose(_, p) =>
      Done(s.(closedPorts := s.closedPorts + {p}))
  }

  function StepClone(s: Sys, pc: Pc, out: Outcome): Moved
    requires IsClone(pc)
  {
    match pc
    case CnClose(c, handle) =>
      To(s.(closedPorts := s.closedPorts + if handle.Some? then {handle.value} else {}), OpRelease(c))
    case RcReceiving(c) =>
      if out.ok then To(Settle(s, out.content), RcStore(c, out.content)) else To(s, RcClose(c))
    case RcStore(c, cp) =>
      To(SetApp(s, StoreFromRadio(s.app, cp)), RcClose(c))
    case RcClose(c) =>
      if c !in s.attempts || s.attempts[c].read.port.None? then To(s, pc)
      else To(s.(closedPorts := s.closedPorts + {s.attempts[c].read.port.value}), RcClear(c))
    case RcClear(c) =>
      To(SetApp(s, ClearCloneState(s.app)), OpRelease(c))
  }

  function Step(s: Sys, t: Tid, out: Outcome): Moved
    requires t in s.pcs
  {
    var pc := s.pcs[t];
    if IsReserved(pc) then StepReserved(s, pc, out)
    else if IsFile(pc) then StepFile(s, pc, out)
    else if IsConnection(pc) then StepConnection(s, t, pc, out)
    else if IsSend(pc) then StepSend(s, pc, out)
    else if IsClone(pc) then StepClone(s, pc, out)
    else if IsOpening(pc) then StepOpening(s, pc, out)
    else StepUnwinding(s, t, pc)
  }

  // ---- runs

  predicate Enabled(s: Sys, e: Event) {
    match e
    case Start(t, _) => t !in s.pcs
    case Advance(t, _) => t in s.pcs
  }

  function Apply(s: Sys, e: Event): Sys
    requires Enabled(s, e)
  {
    match e
    case Start(t, call) => Land(StartCall(s, t, call), t)
    case Advance(t, out) => Land(Step(s, t, out), t)
  }

  /**
   The front end's rule for clone-mode reads: an attempt is received at most once
   and only when armed, and is not cancelled while it is being received.
   */
  predicate Disciplined(s: Sys, e: Event) {
    e.Start? && s.app.cloneState.Some? ==>
      var c := s.app.cloneState.value;
      && (e.call.CallReceive? ==> c in s.attempts && s.attempts[c].read.armed)
      && (e.call.CallReceive? || e.call.CallCancelClone? ==> forall u | u in s.pcs :: !Receiving(s.pcs[u], c))
  }

  predicate Run(s: Sys, es: seq<Event>)
    decreases |es|
  {
    es == [] || (Enabled(s, es[0]) && Disciplined(s, es[0]) && Run(Apply(s, es[0]), es[1..]))
  }

  function After(s: Sys, es: seq<Event>): Sys
    requires Run(s, es)
    decreases |es|
  {
    if es == [] then s else After(Apply(s, es[0]), es[1..])
  }

  // ---- runs in which nobody keeps the rule

  predicate Schedule(s: Sys, es: seq<Event>)
    decreases |es|
  {
    es == [] || (Enabled(s, es[0]) && Schedule(Apply(s, es[0]), es[1..]))
  }

  function Reached(s: Sys, es: seq<Event>): Sys
    requires Schedule(s, es)
    decreases |es|
  {
    if es == [] then s else Reached(Apply(s, es[0]), es[1..])
  }

  /** One event in front of a schedule; `next` is the state it leads to. */
  lemma Prepend(s: Sys, e: Event, next: Sys, es: seq<Event>)
    requires Enabled(s, e) && Apply(s, e) == next && Schedule(next, es)
    ensures Schedule(s, [e] + es) && Reached(s, [e] + es) == Reached(next, es)
  {
    assert ([e] + es)[1..] == es;
  }
}

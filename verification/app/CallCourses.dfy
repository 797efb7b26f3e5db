/**
 How a call begins and how it goes on: what it is refused for, in which order, what
 it takes out of the lock, and that its slow work is stored exactly when it succeeds.
 */
module CallCourses {
  import opened Results
  import opened AppSections
  import opened Protocol
  import opened Reservation
  import opened CloneAttempts
  import opened Interleavings

  // ---- refusals

  function When(c: bool, e: Error): Option<Error> {
    if c then Some(e) else None
  }

  function FirstOf(e: Option<Error>, f: Option<Error>): Option<Error> {
    if e.Some? then e else f
  }

  function Held(a: App): Option<Error> {
    if a.opBusy.Some? then Some(OperationBusy(a.opBusy.value)) else None
  }

  function Sending(a: App): Option<Error> {
    When(a.transfer.running, TransferRunning)
  }

  function Busy(a: App): Option<Error> {
    FirstOf(Held(a), Sending(a))
  }

  function Unconnected(a: App): Option<Error> {
    When(a.conn.None?, NotConnected)
  }

  function Unloaded(a: App): Option<Error> {
    When(a.working.None?, NothingLoaded)
  }

  /** Why a call is refused: the first of its reasons that applies. */
  function ReasonFor(a: App, call: Call): Option<Error> {
    match call
    case CallReadRadio => FirstOf(Unconnected(a), Held(a))
    case CallPrepareSend => FirstOf(Unconnected(a), FirstOf(Unloaded(a), FirstOf(Sending(a), Held(a))))
    case CallReadSettings => FirstOf(Unconnected(a), FirstOf(Unloaded(a), Held(a)))
    case CallWriteSetting => FirstOf(Unconnected(a), Held(a))
    case CallSave(path) => FirstOf(When(path == "", EmptyPath), FirstOf(Busy(a), Unloaded(a)))
    case CallLoad(_) => Busy(a)
    case CallEdit(edited) => FirstOf(Busy(a), FirstOf(Unloaded(a), When(edited.None?, UnknownSlot)))
    case CallImport => FirstOf(Busy(a), Unloaded(a))
    case CallConnect => FirstOf(When(a.conn.Some?, AlreadyConnected), Sending(a))
    case CallDisconnect => FirstOf(Busy(a), Unconnected(a))
    case CallConfirmSend => FirstOf(Sending(a), Held(a))
    case CallCancelTransfer => When(!a.transfer.running || a.transfer.cancel.None?, NoTransferRunning)
    case CallArm => Held(a)
    case CallCancelClone => When(a.cloneState.None?, CloneNotArmed)
    case CallReceive => When(a.cloneState.None?, CloneNotArmed)
  }

  function ErrorOf<T>(r: Result<T, Error>): Option<Error> {
    if r.Err? then Some(r.error) else None
  }

  /** What the first section of a call reports; `c` would name a new attempt. */
  function Reported(a: App, call: Call, c: nat): Option<Error>
    requires !call.CallCancelClone? && !call.CallReceive?
  {
    match call
    case CallReadRadio => ErrorOf(BeginReadRadio(a).1)
    case CallPrepareSend => ErrorOf(BeginPrepareSend(a).1)
    case CallReadSettings => ErrorOf(BeginReadSettings(a).1)
    case CallWriteSetting => ErrorOf(BeginWriteSetting(a).1)
    case CallSave(path) => ErrorOf(BeginSave(a, path))
    case CallLoad(_) => CheckNotBusy(a)
    case CallEdit(edited) => ApplyEdits(a, edited).1
    case CallImport => BeginImport(a)
    case CallConnect => BeginConnect(a)
    case CallDisconnect => ErrorOf(BeginDisconnect(a).1)
    case CallConfirmSend => ErrorOf(BeginConfirmSend(a).1)
    case CallCancelTransfer => ErrorOf(BeginCancelTransfer(a))
    case CallArm => BeginArm(a, c).1
  }

  /** Each call reports the first of its reasons, and none when there is none. */
  lemma ReasonIsReported(a: App, call: Call, c: nat)
    requires !call.CallCancelClone? && !call.CallReceive?
    ensures Reported(a, call, c) == ReasonFor(a, call)
  {
  }

  /** A load or an import that comes back asks again, and is refused for the same reasons. */
  lemma LateReasonIsReported(a: App, path: Path, cp: Content, merged: Option<Content>)
    ensures CommitLoad(a, path, cp).1 == ReasonFor(a, CallLoad(path))
    ensures MergeImport(a, merged).1 == ReasonFor(a, CallImport)
  {
  }

  // ---- what a call takes out of the lock

  /** Where a call goes when it is not refused: with what it was given and what it found. */
  function Entry(s: Sys, call: Call): Option<Pc>
    requires ReasonFor(s.app, call).None?
    requires s.app.cloneState.Some? ==> s.app.cloneState.value in s.attempts
  {
    match call
    case CallReadRadio => Some(RdReading(s.app.conn.value, s.taken))
    case CallPrepareSend => Some(PsPreparing(s.app.conn.value, s.app.working.value, s.taken))
    case CallReadSettings => Some(RsReading(s.app.conn.value, s.taken))
    case CallWriteSetting => Some(WsWriting(s.app.conn.value, s.taken))
    case CallSave(path) => Some(SvWriting(path, s.app.working.value, s.app.workingRev, s.bumps))
    case CallLoad(path) => Some(LdLoading(path))
    case CallEdit(_) => None
    case CallImport => Some(ImParsing)
    case CallConnect => Some(CoOpening)
    case CallDisconnect => Some(SessClose(s.app.conn.value))
    case CallConfirmSend => Some(CfCheck(s.app.conn, s.app.currentPlan))
    case CallCancelTransfer => Some(CtFire(s.app.transfer.cancel.value))
    case CallArm => Some(ArOpening(s.taken))
    case CallCancelClone => Some(CnClose(s.app.cloneState.value, s.attempts[s.app.cloneState.value].read.port))
    case CallReceive => Some(RcReceiving(s.app.cloneState.value))
  }

  lemma StartReservedEnters(s: Sys, t: Tid, call: Call)
    requires ReservedCall(call) && (s.app.cloneState.Some? ==> s.app.cloneState.value in s.attempts)
    ensures StartReserved(s, t, call).next == if ReasonFor(s.app, call).Some? then None else Entry(s, call)
  {
  }

  lemma StartOtherEnters(s: Sys, t: Tid, call: Call)
    requires !ReservedCall(call) && (s.app.cloneState.Some? ==> s.app.cloneState.value in s.attempts)
    ensures StartCall(s, t, call).next == if ReasonFor(s.app, call).Some? then None else Entry(s, call)
  {
  }

  /** In every reachable state a call returns at once if it has a reason to, and else enters with what it found. */
  lemma CallsEnterExactly(es: seq<Event>, t: Tid, call: Call)
    requires Run(INIT, es)
    ensures var s := After(INIT, es);
            && (s.app.cloneState.Some? ==> s.app.cloneState.value in s.attempts)
            && StartCall(s, t, call).next == if ReasonFor(s.app, call).Some? then None else Entry(s, call)
  {
    Reachable(es);
    var s := After(INIT, es);
    if ReservedCall(call) {
      StartReservedEnters(s, t, call);
    } else {
      StartOtherEnters(s, t, call);
    }
  }

  // ---- what slow work leads to

  /** Outside the lock, on the way to a section that stores what comes of it. */
  predicate Working(pc: Pc) {
    || pc.RdReading? || pc.PsPreparing? || pc.RsReading? || pc.SvWriting? || pc.LdLoading? || pc.ImParsing?
    || pc.CoOpening? || pc.CfCheck? || pc.ArOpening? || pc.ArArming? || pc.RcReceiving?
  }

  /** The section that stores it, with what it stores. */
  function StoreOf(s: Sys, pc: Pc, out: Outcome): Pc
    requires Working(pc) && (pc.CfCheck? ==> pc.conn.Some? && pc.found.Some?)
  {
    match pc
    case RdReading(_, res) => RdStore(out.content, res)
    case PsPreparing(session, copy, res) => PsStore(Plan(s.nextPlan, session, copy), res)
    case RsReading(_, res) => RsMerge(res)
    case SvWriting(path, copy, rev, at) => SvFinish(path, copy, rev, at)
    case LdLoading(path) => LdCommit(path, out.content)
    case ImParsing => ImMerge
    case CoOpening => CoInstall(s.nextSession)
    case CfCheck(conn, found) => CfArm(conn.value, found.value)
    case ArOpening(c) => ArPublish(c, s.nextPort)
    case ArArming(c, p) => ArReception(c, p)
    case RcReceiving(c) => RcStore(c, out.content)
  }

  /** Where it goes instead: back, or to give up what it holds. */
  function WayOut(pc: Pc): Option<Pc>
    requires Working(pc)
  {
    match pc
    case RdReading(_, res) => Some(OpRelease(res))
    case PsPreparing(_, _, res) => Some(OpRelease(res))
    case RsReading(_, res) => Some(OpRelease(res))
    case CfCheck(_, _) => Some(CfRelease)
    case ArOpening(c) => Some(ArAbandon(c))
    case ArArming(c, p) => Some(ArFailed(c, p))
    case RcReceiving(c) => Some(RcClose(c))
    case _ => None
  }

  /**
   Slow work that succeeds goes on to store what came of it, slow work that fails
   stores nothing and gives up what it held; a send needs a session, a plan and
   the digest the user confirmed.
   */
  lemma SuccessIsStored(s: Sys, t: Tid, out: Outcome)
    requires t in s.pcs && Working(s.pcs[t])
    ensures var pc := s.pcs[t];
            Step(s, t, out).next ==
              if out.ok && (pc.CfCheck? ==> pc.conn.Some? && pc.found.Some?) then Some(StoreOf(s, pc, out))
              else WayOut(pc)
  {
  }

  lemma PreFlightInOrder(conn: Option<Session>, plan: Option<Plan>, digestMatches: bool)
    ensures PreFlight(conn, plan, digestMatches)
         == FirstOf(When(conn.None?, NotConnected),
                    FirstOf(When(plan.None?, NoActivePlan), When(!digestMatches, DigestMismatch)))
  {
  }
}

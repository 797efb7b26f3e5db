/**
 The critical sections of the GUI controller, as functions on the fields that
 the controller's mutex guards.

 Every bound method of the controller runs as a few short sections under the
 mutex with slow work (radio, files, ports) between them.  Each function below
 is one section: it takes the guarded fields as the section finds them and gives
 the fields it leaves, with what it returns to the code outside the lock.
 `Controller` proves the imperative sections against these functions;
 `Protocol` interleaves them.
 */
module AppSections {
  import opened Results

  /** Stands for all the data one codeplug holds: equal tokens, equal data. */
  type Content = int

  type Path = string
  type Session = nat
  type Port = nat

  /** The revision counter is a 64-bit unsigned integer. */
  const REVISIONS: nat := 0x1_0000_0000_0000_0000

  datatype Operation = ReadRadioOp | PrepareSendOp | ReadSettingsOp | WriteSettingOp | ArmCloneOp

  /** A send plan knows the session it was prepared against and the content it would send. */
  datatype Plan = Plan(id: nat, session: Session, content: Content)

  /** `cancel` identifies the plan whose context the stored cancel function ends. */
  datatype Transfer = Transfer(running: bool, cancel: Option<nat>)

  const IDLE := Transfer(false, None)

  datatype Error =
    | NotConnected
    | AlreadyConnected
    | NothingLoaded
    | TransferRunning
    | NoTransferRunning
    | NoActivePlan
    | DigestMismatch
    | OperationBusy(op: Operation)
    | EmptyPath
    | UnknownSlot
    | CloneNotArmed

  /** The guarded fields; a clone-mode read attempt goes by a number. */
  datatype App = App(
    conn: Option<Session>,
    baseline: Option<Content>,
    working: Option<Content>,
    workingPath: Path,
    dirty: bool,
    workingRev: nat,
    baselineStale: bool,
    currentPlan: Option<Plan>,
    transfer: Transfer,
    opBusy: Option<Operation>,
    cloneState: Option<nat>)

  /** One clone-mode read attempt: the port and reception handle, once published. */
  datatype CloneRead = CloneRead(port: Option<Port>, armed: bool, cancelled: bool)

  function NewApp(): App {
    App(None, None, None, "", false, 0, false, None, IDLE, None, None)
  }

  function NextRev(rev: nat): nat {
    (rev + 1) % REVISIONS
  }

  // ---- reservation.go

  function CheckNotBusy(a: App): Option<Error> {
    if a.opBusy.Some? then Some(OperationBusy(a.opBusy.value))
    else if a.transfer.running then Some(TransferRunning)
    else None
  }

  function ReserveOp(a: App, op: Operation): (App, Option<Error>) {
    if a.opBusy.Some? then (a, Some(OperationBusy(a.opBusy.value)))
    else (a.(opBusy := Some(op)), None)
  }

  function ReleaseOp(a: App): App {
    a.(opBusy := None)
  }

  // ---- codeplug.go, clone.go: a whole codeplug arrives from a radio

  function BeginReadRadio(a: App): (App, Result<Session, Error>) {
    if a.conn.None? then (a, Err(NotConnected))
    else
      var (b, busy) := ReserveOp(a, ReadRadioOp);
      (b, if busy.Some? then Err(busy.value) else Ok(a.conn.value))
  }

  function StoreFromRadio(a: App, cp: Content): App {
    a.(baseline := Some(cp), working := Some(cp), workingRev := NextRev(a.workingRev),
       workingPath := "", dirty := false, baselineStale := false)
  }

  /** `edited` is the content the edits produce, or None when a slot is unknown. */
  function ApplyEdits(a: App, edited: Option<Content>): (App, Option<Error>) {
    var busy := CheckNotBusy(a);
    if busy.Some? then (a, busy)
    else if a.working.None? then (a, Some(NothingLoaded))
    else if edited.None? then (a, Some(UnknownSlot))
    else (a.(working := edited, workingRev := NextRev(a.workingRev), dirty := true), None)
  }

  // ---- settings.go

  function BeginReadSettings(a: App): (App, Result<Session, Error>) {
    if a.conn.None? then (a, Err(NotConnected))
    else if a.working.None? then (a, Err(NothingLoaded))
    else
      var (b, busy) := ReserveOp(a, ReadSettingsOp);
      (b, if busy.Some? then Err(busy.value) else Ok(a.conn.value))
  }

  /** `merged` is the working copy with the fresh settings merged in. */
  function MergeSettings(a: App, merged: Content): App
    requires a.working.Some?
  {
    a.(working := Some(merged), workingRev := NextRev(a.workingRev), dirty := true)
  }

  function BeginWriteSetting(a: App): (App, Result<Session, Error>) {
    if a.conn.None? then (a, Err(NotConnected))
    else
      var (b, busy) := ReserveOp(a, WriteSettingOp);
      (b, if busy.Some? then Err(busy.value) else Ok(a.conn.value))
  }

  // ---- fileio.go, importexport.go

  /** A save leaves the lock with the snapshot and the revision it represents. */
  function BeginSave(a: App, path: Path): Result<(Content, nat), Error> {
    if path == "" then Err(EmptyPath)
    else
      var busy := CheckNotBusy(a);
      if busy.Some? then Err(busy.value)
      else if a.working.None? then Err(NothingLoaded)
      else Ok((a.working.value, a.workingRev))
  }

  function FinishSave(a: App, path: Path, savedRev: nat): App {
    a.(workingPath := path, dirty := if a.workingRev == savedRev then false else a.dirty)
  }

  function CommitLoad(a: App, path: Path, cp: Content): (App, Option<Error>) {
    var busy := CheckNotBusy(a);
    if busy.Some? then (a, busy)
    else (a.(working := Some(cp), workingRev := NextRev(a.workingRev), workingPath := path, dirty := false), None)
  }

  function BeginImport(a: App): Option<Error> {
    var busy := CheckNotBusy(a);
    if busy.Some? then busy
    else if a.working.None? then Some(NothingLoaded)
    else None
  }

  /** `merged` is None when the merge is refused, which leaves the working copy alone. */
  function MergeImport(a: App, merged: Option<Content>): (App, Option<Error>) {
    var refused := BeginImport(a);
    if refused.Some? || merged.None? then (a, refused)
    else (a.(working := merged, workingRev := NextRev(a.workingRev), dirty := true), None)
  }

  // ---- connection.go

  function BeginConnect(a: App): Option<Error> {
    if a.conn.Some? then Some(AlreadyConnected)
    else if a.transfer.running then Some(TransferRunning)
    else None
  }

  /** False: the race against another connect is lost and `s` must be closed. */
  function InstallSession(a: App, s: Session): (App, bool) {
    if a.conn.Some? then (a, false) else (a.(conn := Some(s)), true)
  }

  function BeginDisconnect(a: App): (App, Result<Session, Error>) {
    var busy := CheckNotBusy(a);
    if busy.Some? then (a, Err(busy.value))
    else (a.(conn := None, currentPlan := None), if a.conn.None? then Err(NotConnected) else Ok(a.conn.value))
  }

  // ---- send.go

  function BeginPrepareSend(a: App): (App, Result<(Session, Content), Error>) {
    if a.conn.None? then (a, Err(NotConnected))
    else if a.working.None? then (a, Err(NothingLoaded))
    else if a.transfer.running then (a, Err(TransferRunning))
    else
      var (b, busy) := ReserveOp(a, PrepareSendOp);
      (b, if busy.Some? then Err(busy.value) else Ok((a.conn.value, a.working.value)))
  }

  function StorePlan(a: App, plan: Plan): App {
    a.(currentPlan := Some(plan))
  }

  /** Takes the transfer slot first and only then hands out what it found. */
  function BeginConfirmSend(a: App): (App, Result<(Option<Session>, Option<Plan>), Error>) {
    if a.transfer.running then (a, Err(TransferRunning))
    else if a.opBusy.Some? then (a, Err(OperationBusy(a.opBusy.value)))
    else (a.(transfer := Transfer(true, None)), Ok((a.conn, a.currentPlan)))
  }

  /** The pre-flight checks made outside the lock. */
  function PreFlight(conn: Option<Session>, plan: Option<Plan>, digestMatches: bool): Option<Error> {
    if conn.None? then Some(NotConnected)
    else if plan.None? then Some(NoActivePlan)
    else if !digestMatches then Some(DigestMismatch)
    else None
  }

  function ReleaseTransfer(a: App): App {
    a.(transfer := IDLE)
  }

  function ArmTransfer(a: App, planId: nat): App {
    a.(transfer := Transfer(true, Some(planId)))
  }

  function FinishSend(a: App, touched: bool): App {
    a.(transfer := IDLE, currentPlan := None, baselineStale := a.baselineStale || touched)
  }

  function BeginCancelTransfer(a: App): Result<nat, Error> {
    if !a.transfer.running || a.transfer.cancel.None? then Err(NoTransferRunning)
    else Ok(a.transfer.cancel.value)
  }

  // ---- clone.go

  function BeginArm(a: App, c: nat): (App, Option<Error>) {
    var (b, busy) := ReserveOp(a, ArmCloneOp);
    if busy.Some? then (a, busy) else (b.(cloneState := Some(c)), None)
  }

  /** True: this call, and not a cancel, must release the reservation. */
  function AbandonArm(a: App, r: CloneRead): (App, bool) {
    if r.cancelled then (a, false) else (a.(cloneState := None), true)
  }

  function PublishPort(r: CloneRead, port: Port): (CloneRead, bool) {
    if r.cancelled then (r, false) else (r.(port := Some(port)), true)
  }

  function PublishReception(r: CloneRead): (CloneRead, bool) {
    if r.cancelled then (r, false) else (r.(armed := true), true)
  }

  function ClearCloneState(a: App): App {
    a.(cloneState := None)
  }
}

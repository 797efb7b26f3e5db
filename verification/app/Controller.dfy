/**
 The controller itself: an object whose fields are updated in place by the
 sections its bound methods run under the mutex.  Each method is one section and
 is proved to do exactly what its function in `AppSections` says.
 */
module Controller {
  import opened Results
  import opened AppSections

  /** One armed, or arming, clone-mode read; `id` is only a name for the object. */
  class CloneReadState {
    const id: nat
    var port: Option<Port>
    var reception: bool
    var cancelled: bool

    constructor (id: nat)
      ensures this.id == id && View() == CloneRead(None, false, false)
    {
      this.id := id;
      port, reception, cancelled := None, false, false;
    }

    function View(): CloneRead
      reads this
    {
      CloneRead(port, reception, cancelled)
    }

    method PublishClonePort(p: Port) returns (published: bool)
      modifies this`port
      ensures (View(), published) == PublishPort(old(View()), p)
    {
      if cancelled {
        return false;
      }
      port := Some(p);
      return true;
    }

    method PublishCloneReception() returns (published: bool)
      modifies this`reception
      ensures (View(), published) == PublishReception(old(View()))
    {
      if cancelled {
        return false;
      }
      reception := true;
      return true;
    }
  }

  class App {
    var conn: Option<Session>
    var baseline: Option<Content>
    var working: Option<Content>
    var workingPath: Path
    var dirty: bool
    var workingRev: nat
    var baselineStale: bool
    var currentPlan: Option<Plan>
    var transfer: Transfer
    var opBusy: Option<Operation>
    var cloneState: CloneReadState?

    constructor ()
      ensures State() == AppSections.NewApp()
      ensures conn.None? && baseline.None? && working.None? && currentPlan.None? && opBusy.None? && cloneState == null
      ensures transfer == Transfer(false, None) && workingPath == "" && workingRev == 0 && !dirty && !baselineStale
    {
      conn, baseline, working, workingPath := None, None, None, "";
      dirty, workingRev, baselineStale := false, 0, false;
      currentPlan, transfer, opBusy, cloneState := None, IDLE, None, null;
    }

    function State(): AppSections.App
      reads this
    {
      AppSections.App(conn, baseline, working, workingPath, dirty, workingRev, baselineStale,
                      currentPlan, transfer, opBusy,
                      if cloneState == null then None else Some(cloneState.id))
    }

    // ---- reservation.go

    method CheckNotBusyLocked() returns (err: Option<Error>)
      ensures err == CheckNotBusy(State())
    {
      if opBusy.Some? {
        return Some(OperationBusy(opBusy.value));
      }
      if transfer.running {
        return Some(TransferRunning);
      }
      return None;
    }

    method ReserveOpLocked(op: Operation) returns (err: Option<Error>)
      modifies this`opBusy
      ensures (State(), err) == ReserveOp(old(State()), op)
    {
      if opBusy.Some? {
        return Some(OperationBusy(opBusy.value));
      }
      opBusy := Some(op);
      return None;
    }

    method ReleaseOpLocked()
      modifies this`opBusy
      ensures State() == ReleaseOp(old(State()))
    {
      opBusy := None;
    }

    method BumpWorkingRevLocked()
      modifies this`workingRev
      ensures workingRev == NextRev(old(workingRev))
    {
      workingRev := (workingRev + 1) % REVISIONS;
    }

    // ---- codeplug.go

    method StartReadRadio() returns (r: Result<Session, Error>)
      modifies this`opBusy
      ensures (State(), r) == BeginReadRadio(old(State()))
    {
      if conn.None? {
        return Err(NotConnected);
      }
      var session := conn.value;
      var busy := ReserveOpLocked(ReadRadioOp);
      if busy.Some? {
        return Err(busy.value);
      }
      return Ok(session);
    }

    /** The storing section of both ReadRadio and ReceiveCloneImage. */
    method StoreRead(cp: Content)
      modifies this`baseline, this`working, this`workingRev, this`workingPath, this`dirty, this`baselineStale
      ensures State() == StoreFromRadio(old(State()), cp)
    {
      baseline := Some(cp);
      working := Some(cp);
      BumpWorkingRevLocked();
      workingPath := "";
      dirty := false;
      baselineStale := false;
    }

    method UpdateChannels(edited: Option<Content>) returns (err: Option<Error>)
      modifies this`working, this`workingRev, this`dirty
      ensures (State(), err) == ApplyEdits(old(State()), edited)
    {
      err := CheckNotBusyLocked();
      if err.Some? {
        return;
      }
      if working.None? {
        return Some(NothingLoaded);
      }
      if edited.None? {
        return Some(UnknownSlot);
      }
      working := edited;
      BumpWorkingRevLocked();
      dirty := true;
    }

    // ---- settings.go

    method StartReadSettings() returns (r: Result<Session, Error>)
      modifies this`opBusy
      ensures (State(), r) == BeginReadSettings(old(State()))
    {
      if conn.None? {
        return Err(NotConnected);
      }
      if working.None? {
        return Err(NothingLoaded);
      }
      var session := conn.value;
      var busy := ReserveOpLocked(ReadSettingsOp);
      if busy.Some? {
        return Err(busy.value);
      }
      return Ok(session);
    }

    method StoreSettings(merged: Content)
      requires working.Some?
      modifies this`working, this`workingRev, this`dirty
      ensures State() == MergeSettings(old(State()), merged)
    {
      working := Some(merged);
      BumpWorkingRevLocked();
      dirty := true;
    }

    method StartWriteSetting() returns (r: Result<Session, Error>)
      modifies this`opBusy
      ensures (State(), r) == BeginWriteSetting(old(State()))
    {
      if conn.None? {
        return Err(NotConnected);
      }
      var session := conn.value;
      var busy := ReserveOpLocked(WriteSettingOp);
      if busy.Some? {
        return Err(busy.value);
      }
      return Ok(session);
    }

    // ---- fileio.go, importexport.go

    method StartSave(path: Path) returns (r: Result<(Content, nat), Error>)
      ensures r == BeginSave(State(), path)
    {
      if path == "" {
        return Err(EmptyPath);
      }
      var busy := CheckNotBusyLocked();
      if busy.Some? {
        return Err(busy.value);
      }
      if working.None? {
        return Err(NothingLoaded);
      }
      return Ok((working.value, workingRev));
    }

    method StoreSaved(path: Path, savedRev: nat)
      modifies this`workingPath, this`dirty
      ensures State() == FinishSave(old(State()), path, savedRev)
    {
      workingPath := path;
      if workingRev == savedRev {
        dirty := false;
      }
    }

    method StoreLoaded(path: Path, cp: Content) returns (err: Option<Error>)
      modifies this`working, this`workingRev, this`workingPath, this`dirty
      ensures (State(), err) == CommitLoad(old(State()), path, cp)
    {
      err := CheckNotBusyLocked();
      if err.Some? {
        return;
      }
      working := Some(cp);
      BumpWorkingRevLocked();
      workingPath := path;
      dirty := false;
    }

    method StartImport() returns (err: Option<Error>)
      ensures err == BeginImport(State())
    {
      err := CheckNotBusyLocked();
      if err.Some? {
        return;
      }
      if working.None? {
        return Some(NothingLoaded);
      }
    }

    method StoreImported(merged: Option<Content>) returns (err: Option<Error>)
      modifies this`working, this`workingRev, this`dirty
      ensures (State(), err) == MergeImport(old(State()), merged)
    {
      err := CheckNotBusyLocked();
      if err.Some? {
        return;
      }
      if working.None? {
        return Some(NothingLoaded);
      }
      if merged.None? {
        return;
      }
      working := merged;
      BumpWorkingRevLocked();
      dirty := true;
    }

    // ---- connection.go

    method StartConnect() returns (err: Option<Error>)
      ensures err == BeginConnect(State())
    {
      if conn.Some? {
        return Some(AlreadyConnected);
      }
      if transfer.running {
        return Some(TransferRunning);
      }
      return None;
    }

    method StoreConnection(s: Session) returns (installed: bool)
      modifies this`conn
      ensures (State(), installed) == InstallSession(old(State()), s)
    {
      if conn.Some? {
        return false;
      }
      conn := Some(s);
      return true;
    }

    method StartDisconnect() returns (r: Result<Session, Error>)
      modifies this`conn, this`currentPlan
      ensures (State(), r) == BeginDisconnect(old(State()))
    {
      var busy := CheckNotBusyLocked();
      if busy.Some? {
        return Err(busy.value);
      }
      var was := conn;
      conn := None;
      currentPlan := None;
      if was.None? {
        return Err(NotConnected);
      }
      return Ok(was.value);
    }

    // ---- send.go

    method StartPrepareSend() returns (r: Result<(Session, Content), Error>)
      modifies this`opBusy
      ensures (State(), r) == BeginPrepareSend(old(State()))
    {
      if conn.None? {
        return Err(NotConnected);
      }
      if working.None? {
        return Err(NothingLoaded);
      }
      if transfer.running {
        return Err(TransferRunning);
      }
      var session := conn.value;
      var busy := ReserveOpLocked(PrepareSendOp);
      if busy.Some? {
        return Err(busy.value);
      }
      return Ok((session, working.value));
    }

    method StorePrepared(plan: Plan)
      modifies this`currentPlan
      ensures State() == StorePlan(old(State()), plan)
    {
      currentPlan := Some(plan);
    }

    method StartConfirmSend() returns (r: Result<(Option<Session>, Option<Plan>), Error>)
      modifies this`transfer
      ensures (State(), r) == BeginConfirmSend(old(State()))
    {
      if transfer.running {
        return Err(TransferRunning);
      }
      if opBusy.Some? {
        return Err(OperationBusy(opBusy.value));
      }
      transfer := Transfer(true, None);
      return Ok((conn, currentPlan));
    }

    method ReleaseTransferLocked()
      modifies this`transfer
      ensures State() == ReleaseTransfer(old(State()))
    {
      transfer := IDLE;
    }

    method StoreCancel(planId: nat)
      modifies this`transfer
      ensures State() == ArmTransfer(old(State()), planId)
    {
      transfer := Transfer(true, Some(planId));
    }

    method CompleteSend(touched: bool)
      modifies this`transfer, this`currentPlan, this`baselineStale
      ensures State() == FinishSend(old(State()), touched)
    {
      transfer := IDLE;
      currentPlan := None;
      if touched {
        baselineStale := true;
      }
    }

    method StartCancelTransfer() returns (r: Result<nat, Error>)
      ensures r == BeginCancelTransfer(State())
    {
      if !transfer.running || transfer.cancel.None? {
        return Err(NoTransferRunning);
      }
      return Ok(transfer.cancel.value);
    }

    // ---- clone.go

    method StartArm(id: nat) returns (r: Result<CloneReadState, Error>)
      modifies this`opBusy, this`cloneState
      ensures (State(), if r.Err? then Some(r.error) else None) == BeginArm(old(State()), id)
      ensures r.Ok? ==> fresh(r.value) && cloneState == r.value && r.value.id == id
                        && r.value.View() == CloneRead(None, false, false)
      ensures r.Err? ==> cloneState == old(cloneState)
    {
      var busy := ReserveOpLocked(ArmCloneOp);
      if busy.Some? {
        return Err(busy.value);
      }
      var cs := new CloneReadState(id);
      cloneState := cs;
      return Ok(cs);
    }

    method AbandonCloneArm(cs: CloneReadState) returns (mustRelease: bool)
      modifies this`cloneState
      ensures (State(), mustRelease) == AbandonArm(old(State()), cs.View())
      ensures !mustRelease ==> cloneState == old(cloneState)
    {
      if cs.cancelled {
        return false;
      }
      cloneState := null;
      return true;
    }

    /** The port to close outside the lock, when the attempt had published one. */
    method StartCancelClone() returns (r: Result<Option<Port>, Error>)
      modifies this`cloneState, cloneState
      ensures old(cloneState) == null ==> State() == old(State()) && r == Err(CloneNotArmed)
      ensures old(cloneState) != null ==>
                && State() == ClearCloneState(old(State()))
                && old(cloneState).View() == old(cloneState.View()).(cancelled := true)
                && r == Ok(old(cloneState.port))
    {
      var cs := cloneState;
      if cs == null {
        return Err(CloneNotArmed);
      }
      cs.cancelled := true;
      cloneState := null;
      return Ok(cs.port);
    }

    method StartReceive() returns (r: Result<CloneReadState, Error>)
      ensures r == if cloneState == null then Err(CloneNotArmed) else Ok(cloneState)
    {
      if cloneState == null {
        return Err(CloneNotArmed);
      }
      return Ok(cloneState);
    }

    method ClearReceived()
      modifies this`cloneState
      ensures State() == ClearCloneState(old(State()))
    {
      cloneState := null;
    }
  }
}

/**
 Runs of the step system on the mutable transport. The shared fields live only in the object;
 what the threads are about to do is decided by what its methods return. A whole run played
 this way leaves the object in the state the step system says, so what holds of every
 reachable state holds of its fields.
 */
module AttemptReplay {
  import opened Options
  import opened AttemptState
  import opened AttemptProtocol
  import opened AttemptInvariants
  import opened AttemptWakeup
  import opened AttemptTheorems
  import opened AttemptRetirement
  import opened AttemptVerdicts
  import opened AttemptConnection
  import opened AttemptTransport

  /** Everything but the shared fields. */
  datatype Control = Control(
    worker: WorkerPc,
    prepare: PreparePc,
    calls: map<nat, CallPc>,
    os: Os,
    who: Owners,
    log: seq<HandOff>)

  function Whole(n: Shared, c: Control): State { State(n, c.worker, c.prepare, c.calls, c.os, c.who, c.log) }

  function Seat(c: Control, t: nat, pc: CallPc): Control { c.(calls := c.calls[t := pc]) }

  function Noted(c: Control, kind: HandOffKind, fd: int, terminal: int): Control {
    c.(log := c.log + [HandOff(kind, fd, terminal)])
  }

  /** The object and the threads have taken exactly this step, or nothing happened. */
  ghost predicate Follows(n: Shared, c: Control, next: Option<State>, ok: bool, n': Shared, c': Control) {
    if next.Some? then ok && Whole(n', c') == next.value else !ok && n' == n && c' == c
  }

  method WorkerDo(tr: Transport, c: Control, e: WorkerStep) returns (ok: bool, c': Control)
    modifies tr
    ensures Follows(old(tr.View()), c, WorkerNext(Whole(old(tr.View()), c), e), ok, tr.View(), c')
  {
    ok, c' := true, c;
    if c.worker.Top? && e.WObserve? {
      var verdict, serial, deadline := tr.WorkerObserve();
      c' := c.(worker := if verdict != 0 then AwaitConnector else Arm(serial, deadline));
    } else if c.worker.Arm? && e.WArm? {
      var serial, deadline, now := c.worker.serial, c.worker.deadline, e.now;
      var due := deadline.Some? && deadline.value <= now;
      c' := c.(worker := if due then ExpireCall(serial, deadline) else Park(serial, deadline));
    } else if c.worker.Park? && e.WWake? {
      ok := tr.wake;
      if ok {
        var had := tr.TakeToken();
        c' := c.(worker := Top);
      }
    } else if c.worker.Park? && e.WTimer? {
      var serial, deadline := c.worker.serial, c.worker.deadline;
      ok := deadline.Some?;
      if ok {
        c' := c.(worker := ExpireCall(serial, deadline));
      }
    } else if c.worker.Park? && e.WParent? {
      c' := c.(worker := ParentCall);
    } else if c.worker.ExpireCall? && e.WExpire? {
      var serial, deadline, now := c.worker.serial, c.worker.deadline, e.now;
      var applied := tr.ExpireObserved(serial, deadline, now);
      c' := c.(worker := if applied then WorkerOwes else Top);
    } else if c.worker.ParentCall? && e.WFail? {
      tr.Fail(7);
      c' := c.(worker := WorkerOwes);
    } else if c.worker.WorkerOwes? && e.WSignal? {
      tr.Signal();
      c' := c.(worker := Top);
    } else if Closing(c.worker) {
      ok, c' := WorkerClose(tr, c, e);
    } else {
      ok := false;
    }
  }

  predicate Closing(pc: WorkerPc) {
    pc.AwaitConnector? || pc.Take? || pc.CloseFd? || pc.CloseConn? || pc.Retire? || pc.CloseRawChan?
        || pc.CloseDoneChan?
  }

  /** The worker past its loop. */
  method WorkerClose(tr: Transport, c: Control, e: WorkerStep) returns (ok: bool, c': Control)
    requires Closing(c.worker)
    modifies tr
    ensures Follows(old(tr.View()), c, WorkerNext(Whole(old(tr.View()), c), e), ok, tr.View(), c')
  {
    ok, c' := true, c;
    if c.worker.Take? && e.WTake? {
      var fd, conn := tr.WorkerTake();
      c' := c.(worker := CloseFd(fd, conn));
    } else if c.worker.Retire? && e.WRetire? {
      tr.WorkerCommit(c.worker.failed);
      c' := c.(worker := CloseRawChan);
    } else if c.worker.CloseRawChan? || c.worker.CloseDoneChan? {
      ok, c' := WorkerEnd(tr, c, e);
    } else if c.worker.AwaitConnector? || c.worker.CloseFd? || c.worker.CloseConn? {
      ok, c' := WorkerLook(tr.View(), tr.connectorDone, c, e);
    } else {
      ok := false;
    }
  }

  method WorkerEnd(tr: Transport, c: Control, e: WorkerStep) returns (ok: bool, c': Control)
    requires c.worker.CloseRawChan? || c.worker.CloseDoneChan?
    modifies tr
    ensures Follows(old(tr.View()), c, WorkerNext(Whole(old(tr.View()), c), e), ok, tr.View(), c')
  {
    ok, c' := true, c;
    if c.worker.CloseRawChan? && e.WCloseRawChan? {
      tr.CloseRaw();
      c' := c.(worker := CloseDoneChan);
    } else if c.worker.CloseDoneChan? && e.WCloseDoneChan? {
      tr.CloseCloser();
      c' := c.(worker := Finished);
    } else {
      ok := false;
    }
  }

  method WorkerLook(ghost n: Shared, connectorDone: nat, c: Control, e: WorkerStep) returns (ok: bool, c': Control)
    requires connectorDone == n.link.doneCloses
    requires c.worker.AwaitConnector? || c.worker.CloseFd? || c.worker.CloseConn?
    ensures Follows(n, c, WorkerNext(Whole(n, c), e), ok, n, c')
  {
    ok, c' := true, c;
    var w := c.worker;
    if w.AwaitConnector? && e.WAwait? && connectorDone > 0 {
      c' := c.(worker := Take);
    } else if w.CloseFd? && e.WCloseFd? {
      if w.fd >= 0 {
        c' := c.(os := DescriptorClosed(c.os, w.fd, e.failed), worker := CloseConn(w.conn, e.failed));
      } else {
        c' := c.(worker := CloseConn(w.conn, false));
      }
    } else if w.CloseConn? && e.WCloseConn? {
      if w.conn {
        c' := c.(os := ConnectionClosed(c.os, e.failed), worker := Retire(w.failed || e.failed));
      } else {
        c' := c.(worker := Retire(w.failed));
      }
    } else {
      ok := false;
    }
  }

  method PrepareDo(tr: Transport, c: Control, e: PrepareStep) returns (ok: bool, c': Control)
    modifies tr
    ensures Follows(old(tr.View()), c, PrepareNext(Whole(old(tr.View()), c), e), ok, tr.View(), c')
  {
    ok, c' := true, c;
    if c.prepare.PStart? && e.PrepDeadline? {
      var dial, now := e.dialTimeout, e.now;
      tr.PrepareDeadline(dial, now);
      c' := c.(prepare := PSignal);
    } else if c.prepare.PSignal? && e.PrepSignal? {
      tr.Signal();
      c' := c.(prepare := PCheck);
    } else if c.prepare.PCheck? && e.PrepCheck? {
      var rejected := e.rejected;
      c' := c.(prepare := if rejected then POver else PLease);
    } else if c.prepare.PLease? && e.PrepLease? {
      var leased := tr.PrepareLease();
      c' := if leased then c.(prepare := POpen, who := c.who.(lease := PrepareLease)) else c.(prepare := POver);
    } else if c.prepare.POpen? && e.PrepOpen? {
      var socket := e.socket;
      if socket.None? {
        c' := c.(prepare := PRelease);
      } else if socket.value < 0 {
        ok := false;
      } else {
        c' := c.(os := c.os.(sockets := c.os.sockets + [socket.value]), prepare := PStore(socket.value));
      }
    } else if c.prepare.PStore? && e.PrepStore? {
      var fd := c.prepare.fd;
      tr.StoreDescriptor(fd);
      c' := c.(prepare := PRelease);
    } else if c.prepare.PRelease? && e.PrepRelease? {
      tr.PrepareRelease();
      c' := c.(prepare := PWake, who := c.who.(lease := NoLease));
    } else if c.prepare.PWake? && e.PrepWake? {
      tr.Signal();
      c' := c.(prepare := POver);
    } else {
      ok := false;
    }
  }

  method ProtectDo(tr: Transport, c: Control, t: nat, e: CallStep) returns (ok: bool, c': Control)
    modifies tr
    ensures Follows(old(tr.View()), c, ProtectNext(Whole(old(tr.View()), c), t, e), ok, tr.View(), c')
  {
    ok, c' := true, c;
    var terminal := tr.terminal;
    match e {
      case CallSocketFD(now, later) =>
        var fd, status := tr.SocketFD(now, later);
        c' := Seat(if status == 0 then Noted(c, Published, fd, terminal) else c, t, Idle);
      case CallConfirm(fd, now, later) =>
        var verdict := tr.Confirm(fd, now, later);
        match verdict {
          case Stopped(_) => c' := Seat(c, t, Idle);
          case Mismatch => c' := Seat(c, t, Owing(OweFail(16)));
          case Accepted => c' := Seat(Noted(c, Confirmed, fd, terminal), t, Idle);
        }
      case _ =>
        ok := false;
    }
  }

  method StartDo(tr: Transport, c: Control, t: nat, e: CallStep) returns (ok: bool, c': Control)
    modifies tr
    ensures Follows(old(tr.View()), c, StartNext(Whole(old(tr.View()), c), t, e), ok, tr.View(), c')
  {
    ok, c' := true, c;
    if e.CallCloseWake? {
      tr.Fail(7);
      c' := Seat(c, t, Owing(OweSignal));
    } else if e.CallFacadeClose? {
      tr.Fail(9);
      c' := Seat(c, t, Owing(FacadeSignal));
    } else if e.CallEnter? {
      c' := EnterDo(tr, c, t, e.stage, e.now, e.ctx);
    } else if e.CallFinish? {
      c' := FinishStart(tr, c, t);
    } else if e.CallRun? {
      var claimed := tr.RunClaim();
      c' := if claimed then Seat(c.(who := c.who.(runner := Some(t))), t, Running) else Seat(c, t, Idle);
    } else {
      ok := false;
    }
  }

  method EnterDo(tr: Transport, c: Control, t: nat, g: Stage, now: int, ctx: Option<int>) returns (c': Control)
    modifies tr
    ensures Follows(old(tr.View()), c, StartNext(Whole(old(tr.View()), c), t, CallEnter(g, now, ctx)),
                    true, tr.View(), c')
  {
    var entry := tr.Enter(EntryPhase(g), now, ctx);
    match entry {
      case Dead(_) => c' := Seat(c, t, Idle);
      case Refused => c' := Seat(c, t, Owing(OweFail(3)));
      case Admitted(d) => c' := Seat(c.(who := c.who.(stage := Some(t))), t, InStage(g, StageSignal(d)));
    }
  }

  method FinishStart(tr: Transport, c: Control, t: nat) returns (c': Control)
    modifies tr
    ensures Follows(old(tr.View()), c, StartNext(Whole(old(tr.View()), c), t, CallFinish), true, tr.View(), c')
  {
    var wasBusy, claimed := tr.FinishClaim();
    if claimed {
      c' := Seat(c.(who := c.who.(finisher := Some(t))), t, Retiring(FinFail));
    } else {
      c' := Seat(c, t, if wasBusy then Idle else WaitDone);
    }
  }

  method OweDo(tr: Transport, c: Control, t: nat, pc: OwePc, e: CallStep) returns (ok: bool, c': Control)
    modifies tr
    ensures Follows(old(tr.View()), c, OweNext(Whole(old(tr.View()), c), t, pc, e), ok, tr.View(), c')
  {
    ok, c' := true, c;
    if pc.OweFail? && e.CallFail? {
      var status := pc.status;
      tr.Fail(status);
      c' := Seat(c, t, Owing(OweSignal));
    } else if pc.OweSignal? && e.CallSignal? {
      tr.Signal();
      c' := Seat(c, t, Idle);
    } else if pc.FacadeSignal? && e.CallSignal? {
      tr.Signal();
      c' := Seat(c, t, Owing(FacadeWait));
    } else if pc.FacadeWait? && e.CallFacadeDone? {
      ok := tr.rawClosed > 0;
      if ok {
        c' := Seat(c, t, Idle);
      }
    } else {
      ok := false;
    }
  }

  function Dialing(c: Control, t: nat, pc: ConnectPc): Control { Seat(c, t, InStage(Connect, Leasing(pc))) }

  predicate ConnectorReads(pc: ConnectPc) { pc.Dial? || pc.Adopt? || pc.Convert? || pc.FileClose? }

  /** The points of the connector that write no field of the transport. */
  method ConnectorLook(ghost n: Shared, terminal: int, c: Control, t: nat, pc: ConnectPc, e: CallStep)
    returns (ok: bool, c': Control)
    requires ConnectorReads(pc) && terminal == n.life.terminal
    ensures Follows(n, c, ConnectorNext(Whole(n, c), t, pc, e), ok, n, c')
  {
    ok, c' := true, c;
    if pc.Dial? && e.CallDial? {
      var fd, called, connected := pc.fd, e.called, e.ok;
      var c1 := if called then Noted(c, Dialed, fd, terminal) else c;
      c' := Dialing(c1, t, if called && connected then Adopt(fd) else Release(false));
    } else if pc.Adopt? && e.CallAdopt? {
      var fd, adopted := pc.fd, e.ok;
      c' := Dialing(c, t, if adopted then Convert(fd) else Release(false));
    } else if pc.Convert? && e.CallConvert? {
      var fd, got := pc.fd, e.got;
      c' := Dialing(c.(os := c.os.(connOpens := c.os.connOpens + if got then 1 else 0)), t, Register(fd, got));
    } else if pc.FileClose? && e.CallFileClose? {
      var fd, got, failed := pc.fd, pc.got, e.failed;
      c' := Dialing(c.(os := DescriptorClosed(c.os, fd, failed)), t, Commit(fd, got, failed));
    } else {
      ok := false;
    }
  }

  method ConnectorDo(tr: Transport, c: Control, t: nat, pc: ConnectPc, e: CallStep) returns (ok: bool, c': Control)
    modifies tr
    ensures Follows(old(tr.View()), c, ConnectorNext(Whole(old(tr.View()), c), t, pc, e), ok, tr.View(), c')
  {
    if ConnectorReads(pc) {
      ok, c' := ConnectorLook(tr.View(), tr.terminal, c, t, pc, e);
      return;
    }
    ok, c' := true, c;
    if pc.Register? && e.CallRegister? {
      var fd, got := pc.fd, pc.got;
      tr.RegisterConnection(got);
      c' := Dialing(c, t, FileClose(fd, got));
    } else if pc.Commit? && e.CallCommit? {
      var fd, got, failed, sawCancel := pc.fd, pc.got, pc.closeFailed, e.sawCancel;
      var verdict := tr.ConnectCommit(failed);
      c' := Dialing(c, t, Release(verdict == 0 && !sawCancel && got && !failed));
    } else if pc.Release? && e.CallRelease? {
      var connected := pc.ok;
      tr.ConnectRelease();
      c' := Seat(c.(who := c.who.(lease := NoLease)), t, InStage(Connect, ConnSignal(connected)));
    } else {
      ok := false;
    }
  }

  predicate StageReads(pc: StagePc, e: CallStep) {
    || pc.StageCheck? || pc.ConnPreface? || pc.AttachBind?
    || (pc.Body? && e.CallInputs?) || (pc.AttachPump? && e.CallCheck?)
  }

  /** The points of a stage that write no field of the transport. */
  method StageLook(ghost n: Shared, c: Control, t: nat, g: Stage, pc: StagePc, e: CallStep)
    returns (ok: bool, c': Control)
    requires StageReads(pc, e)
    ensures Follows(n, c, StageNext(Whole(n, c), t, g, pc, e), ok, n, c')
  {
    ok, c' := true, c;
    if pc.StageCheck? && e.CallCheck? {
      var d, now, revalidated := pc.deadline, e.now, e.revalidated;
      c' := Seat(c, t, InStage(g, if d <= now || !revalidated then Leaving(0, true) else Body));
    } else if pc.Body? && e.CallInputs? {
      var admitted := e.admitted;
      if g == Connect {
        c' := Seat(c, t, InStage(g, if admitted then ConnLease else Leaving(CONNECTED, true)));
      } else if g == Attach {
        c' := Seat(c, t, InStage(g, if admitted then AttachPump else AttachResult(false)));
      } else {
        ok := false;
      }
    } else if pc.ConnPreface? && e.CallPreface? {
      var sent := e.ok;
      c' := Seat(c, t, InStage(g, Leaving(CONNECTED, !sent)));
    } else if pc.AttachPump? || pc.AttachBind? {
      ok, c' := AttachLook(n, c, t, g, pc, e);
    } else {
      ok := false;
    }
  }

  method AttachLook(ghost n: Shared, c: Control, t: nat, g: Stage, pc: StagePc, e: CallStep)
    returns (ok: bool, c': Control)
    requires (pc.AttachPump? && e.CallCheck?) || pc.AttachBind?
    ensures Follows(n, c, StageNext(Whole(n, c), t, g, pc, e), ok, n, c')
  {
    ok, c' := false, c;
    if e.CallCheck? {
      ok := !e.revalidated;
      if ok {
        c' := Seat(c, t, InStage(g, Leaving(0, true)));
      }
    } else if e.CallBind? {
      ok, c' := true, Seat(c, t, InStage(g, Leaving(ATTACHED, !(pc.ok && e.ok))));
    }
  }

  method StageDo(tr: Transport, c: Control, t: nat, g: Stage, pc: StagePc, e: CallStep) returns (ok: bool, c': Control)
    modifies tr
    ensures Follows(old(tr.View()), c, StageNext(Whole(old(tr.View()), c), t, g, pc, e), ok, tr.View(), c')
  {
    if StageReads(pc, e) {
      ok, c' := StageLook(tr.View(), c, t, g, pc, e);
    } else if pc.Body? && e.CallWrite? {
      ok, c' := StageBody(tr, c, t, g, e.wrote, e.got, e.ok);
    } else if pc.ConnLease? && e.CallLease? {
      c' := StageLease(tr, c, t, g, e.sawCancel);
      ok := true;
    } else if pc.Leaving? && e.CallLeave? {
      ok, c' := StageLeave(tr, c, t, g, pc.target, pc.failed, e.status);
    } else if (pc.StageSignal? || pc.ConnSignal?) && e.CallSignal? {
      c' := StageTells(tr, c, t, g, pc);
      ok := true;
    } else if pc.AttachPump? && e.CallPump? {
      c' := StagePump(tr, c, t, g, e.asService, e.got, e.ok);
      ok := true;
    } else if pc.AttachResult? && e.CallDropResult? {
      c' := StageDrop(tr, c, t, g, pc.ok);
      ok := true;
    } else {
      ok, c' := false, c;
    }
  }

  method StageBody(tr: Transport, c: Control, t: nat, g: Stage, wrote: bool, got: bool, done: bool)
    returns (ok: bool, c': Control)
    modifies tr
    ensures Follows(old(tr.View()), c, StageNext(Whole(old(tr.View()), c), t, g, Body, CallWrite(wrote, got, done)),
                    ok, tr.View(), c')
  {
    ok, c' := true, c;
    if g == Tls {
      tr.SetCarrier(if wrote then got else tr.carrier);
      c' := Seat(c, t, InStage(g, Leaving(TLS, !done)));
    } else if g == Kurd {
      tr.SetResult(if wrote then got else tr.result);
      c' := Seat(c, t, InStage(g, Leaving(KURD, !done)));
    } else {
      ok := false;
    }
  }

  method StageLease(tr: Transport, c: Control, t: nat, g: Stage, sawCancel: bool) returns (c': Control)
    modifies tr
    ensures Follows(old(tr.View()), c, StageNext(Whole(old(tr.View()), c), t, g, ConnLease, CallLease(sawCancel)),
                    true, tr.View(), c')
  {
    c' := Seat(c, t, InStage(g, Leaving(CONNECTED, true)));
    if !sawCancel {
      var leased, fd := tr.ConnectLease();
      if leased {
        c' := Dialing(Noted(c, Leased, fd, tr.terminal).(who := c.who.(lease := CallerLease(t))), t, Dial(fd));
      }
    }
  }

  method StageLeave(tr: Transport, c: Control, t: nat, g: Stage, target: nat, failed: bool, status: int)
    returns (ok: bool, c': Control)
    modifies tr
    ensures Follows(old(tr.View()), c,
                    StageNext(Whole(old(tr.View()), c), t, g, Leaving(target, failed), CallLeave(status)),
                    ok, tr.View(), c')
  {
    ok, c' := !(failed && status == 0), c;
    if ok {
      var reported := tr.Leave(target, status);
      c' := Seat(c.(who := c.who.(stage := None)), t, Owing(OweSignal));
    }
  }

  method StageTells(tr: Transport, c: Control, t: nat, g: Stage, pc: StagePc) returns (c': Control)
    requires pc.StageSignal? || pc.ConnSignal?
    modifies tr
    ensures Follows(old(tr.View()), c, StageNext(Whole(old(tr.View()), c), t, g, pc, CallSignal), true, tr.View(), c')
  {
    tr.Signal();
    if pc.StageSignal? {
      c' := Seat(c, t, InStage(g, StageCheck(pc.deadline)));
    } else {
      c' := Seat(c, t, InStage(g, if pc.ok then ConnPreface else Leaving(CONNECTED, true)));
    }
  }

  method StagePump(tr: Transport, c: Control, t: nat, g: Stage, asService: bool, got: bool, built: bool)
    returns (c': Control)
    modifies tr
    ensures Follows(old(tr.View()), c,
                    StageNext(Whole(old(tr.View()), c), t, g, AttachPump, CallPump(asService, got, built)),
                    true, tr.View(), c')
  {
    if asService {
      tr.SetService(got);
    } else {
      tr.SetPacket(got);
    }
    c' := Seat(c, t, InStage(g, AttachResult(built)));
  }

  method StageDrop(tr: Transport, c: Control, t: nat, g: Stage, built: bool) returns (c': Control)
    modifies tr
    ensures Follows(old(tr.View()), c, StageNext(Whole(old(tr.View()), c), t, g, AttachResult(built), CallDropResult),
                    true, tr.View(), c')
  {
    tr.SetResult(false);
    c' := Seat(c, t, InStage(g, AttachBind(built)));
  }

  method FinishDo(tr: Transport, c: Control, t: nat, pc: FinishPc, e: CallStep) returns (ok: bool, c': Control)
    modifies tr
    ensures Follows(old(tr.View()), c, FinishNext(Whole(old(tr.View()), c), t, pc, e), ok, tr.View(), c')
  {
    ok, c' := false, c;
    if Joining(pc) {
      ok, c' := FinishJoin(tr, c, t, pc, e);
    } else if pc.FinFail? || pc.FinSignal? {
      ok, c' := FinishOpens(tr, c, t, pc, e);
    } else if e.CallDrop? {
      ok := true;
      c' := FinishDrop(tr, c, t, pc);
    }
  }

  method FinishOpens(tr: Transport, c: Control, t: nat, pc: FinishPc, e: CallStep) returns (ok: bool, c': Control)
    requires pc.FinFail? || pc.FinSignal?
    modifies tr
    ensures Follows(old(tr.View()), c, FinishNext(Whole(old(tr.View()), c), t, pc, e), ok, tr.View(), c')
  {
    ok, c' := true, c;
    if pc.FinFail? && e.CallFail? {
      tr.Fail(7);
      c' := Seat(c, t, Retiring(FinSignal));
    } else if pc.FinSignal? && e.CallSignal? {
      tr.Signal();
      c' := Seat(c, t, Retiring(FinService));
    } else {
      ok := false;
    }
  }

  predicate Dropping(pc: FinishPc) { pc.FinService? || pc.FinPacket? || pc.FinCarrier? || pc.FinResult? }

  method FinishDrop(tr: Transport, c: Control, t: nat, pc: FinishPc) returns (c': Control)
    requires Dropping(pc)
    modifies tr
    ensures Follows(old(tr.View()), c, FinishNext(Whole(old(tr.View()), c), t, pc, CallDrop), true, tr.View(), c')
  {
    if pc.FinService? {
      tr.SetService(false);
      c' := Seat(c, t, Retiring(FinPacket));
    } else if pc.FinPacket? {
      tr.SetPacket(false);
      c' := Seat(c, t, Retiring(FinCarrier));
    } else if pc.FinCarrier? {
      tr.SetCarrier(false);
      c' := Seat(c, t, Retiring(FinResult));
    } else {
      tr.SetResult(false);
      c' := Seat(c, t, Retiring(FinConnector));
    }
  }

  method FinishJoin(tr: Transport, c: Control, t: nat, pc: FinishPc, e: CallStep) returns (ok: bool, c': Control)
    requires Joining(pc)
    modifies tr
    ensures Follows(old(tr.View()), c, FinishNext(Whole(old(tr.View()), c), t, pc, e), ok, tr.View(), c')
  {
    if !pc.FinCommit? && !pc.FinClose? {
      ok, c' := FinishLook(tr.View(), tr.connectorDone, tr.closerDone, c, t, pc, e);
    } else if pc.FinCommit? {
      ok, c' := FinishCommits(tr, c, t, e);
    } else {
      ok, c' := FinishCloses(tr, c, t, e);
    }
  }

  method FinishCommits(tr: Transport, c: Control, t: nat, e: CallStep) returns (ok: bool, c': Control)
    modifies tr
    ensures Follows(old(tr.View()), c, FinishNext(Whole(old(tr.View()), c), t, FinCommit, e), ok, tr.View(), c')
  {
    ok, c' := e.CallFinishCommit?, c;
    if ok {
      tr.FinishCommit();
      c' := Seat(c, t, Retiring(FinClose));
    }
  }

  method FinishCloses(tr: Transport, c: Control, t: nat, e: CallStep) returns (ok: bool, c': Control)
    modifies tr
    ensures Follows(old(tr.View()), c, FinishNext(Whole(old(tr.View()), c), t, FinClose, e), ok, tr.View(), c')
  {
    ok, c' := e.CallCloseDone?, c;
    if ok {
      tr.CloseDone();
      c' := Seat(c, t, Idle);
    }
  }

  method FinishLook(ghost n: Shared, connectorDone: nat, closerDone: nat, c: Control, t: nat, pc: FinishPc, e: CallStep)
    returns (ok: bool, c': Control)
    requires connectorDone == n.link.doneCloses && closerDone == n.ends.closer
    requires pc.FinConnector? || pc.FinCloser? || pc.FinOwned?
    ensures Follows(n, c, FinishNext(Whole(n, c), t, pc, e), ok, n, c')
  {
    ok, c' := false, c;
    if pc.FinConnector? && e.CallJoin? && connectorDone > 0 {
      ok, c' := true, Seat(c, t, Retiring(FinCloser));
    } else if pc.FinCloser? && e.CallJoin? && closerDone > 0 {
      ok, c' := true, Seat(c, t, Retiring(FinOwned));
    } else if pc.FinOwned? && e.CallFinishOwned? {
      var next := if e.status == 0 then Retiring(FinCommit) else Idle;
      ok, c' := true, Seat(c.(os := c.os.(owned := Some(e.status))), t, next);
    }
  }

  method CallDo(tr: Transport, c: Control, t: nat, e: CallStep) returns (ok: bool, c': Control)
    modifies tr
    ensures Follows(old(tr.View()), c, CallNext(Whole(old(tr.View()), c), t, e), ok, tr.View(), c')
  {
    var pc := if t in c.calls then c.calls[t] else Idle;
    if pc.Idle? {
      if e.CallSocketFD? || e.CallConfirm? {
        ok, c' := ProtectDo(tr, c, t, e);
      } else {
        ok, c' := StartDo(tr, c, t, e);
      }
    } else if pc.Owing? {
      ok, c' := OweDo(tr, c, t, pc.owe, e);
    } else if pc.InStage? || pc.Retiring? {
      ok, c' := WorkDo(tr, c, t, e);
    } else {
      ok, c' := EndDo(tr, c, t, e);
    }
  }

  /** A stage or the retirement goes on. */
  method WorkDo(tr: Transport, c: Control, t: nat, e: CallStep) returns (ok: bool, c': Control)
    requires t in c.calls && (c.calls[t].InStage? || c.calls[t].Retiring?)
    modifies tr
    ensures Follows(old(tr.View()), c, CallNext(Whole(old(tr.View()), c), t, e), ok, tr.View(), c')
  {
    var pc := c.calls[t];
    if pc.Retiring? {
      ok, c' := FinishDo(tr, c, t, pc.fin, e);
    } else if pc.at.Leasing? {
      ok, c' := ConnectorDo(tr, c, t, pc.at.conn, e);
    } else {
      ok, c' := StageDo(tr, c, t, pc.stage, pc.at, e);
    }
  }

  /** A second finisher that joins, and the end of RunV1. */
  method EndDo(tr: Transport, c: Control, t: nat, e: CallStep) returns (ok: bool, c': Control)
    requires t in c.calls && (c.calls[t].WaitDone? || c.calls[t].Running?)
    modifies tr
    ensures Follows(old(tr.View()), c, CallNext(Whole(old(tr.View()), c), t, e), ok, tr.View(), c')
  {
    if c.calls[t].WaitDone? {
      ok := e.CallJoin? && tr.done > 0;
      c' := if ok then Seat(c, t, Idle) else c;
    } else {
      ok, c' := e.CallRunEnd?, c;
      if ok {
        tr.RunEnd();
        c' := Seat(c.(who := c.who.(runner := None)), t, Idle);
      }
    }
  }

  method Do(tr: Transport, c: Control, e: Step) returns (ok: bool, c': Control)
    modifies tr
    ensures Follows(old(tr.View()), c, Next(Whole(old(tr.View()), c), e), ok, tr.View(), c')
  {
    match e {
      case WorkerDoes(w) => ok, c' := WorkerDo(tr, c, w);
      case PrepareDoes(p) => ok, c' := PrepareDo(tr, c, p);
      case CallDoes(t, call) => ok, c' := CallDo(tr, c, t, call);
    }
  }

  lemma {:induction false} StuckStaysStuck(s: State, run: seq<Step>, rest: seq<Step>)
    requires Run(s, run) == None
    ensures Run(s, run + rest) == None
    decreases run
  {
    if Next(s, run[0]).Some? {
      StuckStaysStuck(Next(s, run[0]).value, run[1..], rest);
      assert (run + rest)[1..] == run[1..] + rest;
    }
  }

  /** The first k steps of a run from s lead here. */
  ghost predicate Played(s: State, run: seq<Step>, k: nat, s': State) { k <= |run| && Run(s, run[..k]) == Some(s') }

  lemma PlayedNext(s: State, run: seq<Step>, k: nat, s': State)
    requires k < |run| && Played(s, run, k, s')
    ensures Run(s, run[..k + 1]) == Next(s', run[k])
  {
    assert run[..k + 1] == run[..k] + [run[k]];
    RunSnoc(s, run[..k], s', run[k]);
  }

  lemma PlayedStuck(s: State, run: seq<Step>, k: nat)
    requires k <= |run| && Run(s, run[..k]) == None
    ensures Run(s, run) == None
  {
    StuckStaysStuck(s, run[..k], run[k..]);
    assert run[..k] + run[k..] == run;
  }

  /** A transport played on: it follows the run as far as the step system does, and stops exactly
      where the step system cannot go on. */
  method PlayOn(tr: Transport, c: Control, run: seq<Step>) returns (ok: bool, c': Control, ghost k: nat)
    modifies tr
    ensures Played(Whole(old(tr.View()), c), run, k, Whole(tr.View(), c'))
    ensures ok <==> k == |run|
    ensures ok <==> Run(Whole(old(tr.View()), c), run).Some?
  {
    ghost var s := Whole(tr.View(), c);
    ok, c' := true, c;
    var i := 0;
    while i < |run|
      invariant 0 <= i <= |run| && Played(s, run, i, Whole(tr.View(), c'))
    {
      PlayedNext(s, run, i, Whole(tr.View(), c'));
      ok, c' := Do(tr, c', run[i]);
      if !ok {
        PlayedStuck(s, run, i + 1);
        k := i;
        return;
      }
      i := i + 1;
    }
    k := i;
    assert run[..i] == run;
  }

  /** A new transport played through a run. */
  method Play(authority: int, run: seq<Step>) returns (tr: Transport, ok: bool, c: Control)
    ensures ok <==> Run(Init(authority), run).Some?
    ensures ok ==> Run(Init(authority), run) == Some(Whole(tr.View(), c))
    ensures Reachable(Whole(tr.View(), c))
  {
    tr := new Transport(authority);
    c := Control(Top, PStart, map[], Os([], [], 0, 0, false, None), Owners(None, NoLease, None, None), []);
    assert Whole(tr.View(), c) == Init(authority);
    ghost var k;
    ok, c, k := PlayOn(tr, c, run);
    assert run[..|run|] == run;
  }

  /** What the theorems say of the object after any run. */
  method PlaySafely(authority: int, run: seq<Step>) returns (tr: Transport, c: Control)
    ensures tr.cancelled <==> tr.terminal != 0
    ensures tr.connectorDone <= 1 && tr.rawClosed <= 1 && tr.closerDone <= 1 && tr.done <= 1
    ensures tr.finishing ==> !tr.busy && !tr.runActive
    ensures tr.closerDone == 1 ==> tr.fd == -1 && !tr.raw
    ensures tr.closerDone == 1 ==> c.os.fdCloses == c.os.sockets && c.os.connCloses == c.os.connOpens
    ensures tr.done == 1 ==> tr.closerDone == 1 && !tr.carrier && !tr.result && !tr.service && !tr.packet
    ensures tr.phase == ATTACHED ==> tr.deadline == None
    ensures c.worker.Park? && (tr.terminal != 0 || tr.serial != c.worker.serial || tr.deadline != c.worker.deadline) ==>
              tr.wake || SignalOwed(Whole(tr.View(), c))
    ensures forall k | 0 <= k < |c.log| ::
              c.log[k].kind == Turn(k) && c.os.sockets == [c.log[k].fd] && (k < 3 ==> c.log[k].terminal == 0)
    ensures OwnedRefused(Whole(tr.View(), c)) ==> tr.finishing && tr.done == 0
    ensures tr.done == 1 ==> tr.finishStatus == if c.os.closeFailed then 9 else 0
    ensures tr.phase >= 4 && tr.terminal == 0 ==> tr.raw && c.os.connOpens == 1 && c.os.connCloses == 0
  {
    var ok;
    tr, ok, c := Play(authority, run);
    ReachableKnown(Whole(tr.View(), c));
    FinalStatus(Whole(tr.View(), c));
    if tr.phase >= 4 && tr.terminal == 0 {
      ConnectedIsLive(Whole(tr.View(), c));
    }
  }

  /** And of the object over any continuation. */
  method ContinueSafely(tr: Transport, c: Control, run: seq<Step>) returns (c': Control)
    requires Reachable(Whole(tr.View(), c))
    modifies tr
    ensures old(tr.phase) <= tr.phase && (old(tr.finishing) ==> tr.finishing)
    ensures old(tr.terminal) != 0 ==> tr.terminal != 0 && (old(tr.terminal) != 9 ==> tr.terminal == old(tr.terminal))
    ensures old(tr.phase) == ATTACHED && old(tr.terminal) == 0 ==>
              tr.deadline == None && tr.terminal in {0, 3, 7, 9, 16}
    ensures OwnedRefused(Whole(old(tr.View()), c)) ==> tr.finishing && tr.done == 0
  {
    ghost var s := Whole(tr.View(), c);
    var ok;
    ghost var k;
    ok, c', k := PlayOn(tr, c, run);
    ghost var s' := Whole(tr.View(), c');
    LatchedForever(s, run[..k], s');
    if s.n.life.phase == ATTACHED && s.n.life.terminal == 0 {
      AttachedNeverExpires(s, run[..k], s');
    }
    if OwnedRefused(s) {
      RefusedForever(s, run[..k], s');
    }
  }
}

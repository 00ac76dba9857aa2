/**
 The attempt transport as a step system. One close worker, one socket preparation
 and any number of caller threads interleave; a step is one section under the
 mutex, or one unlocked action (a channel operation, a socket call, a write to a
 field the stage owns). Whatever the network, the clock or the authority answers
 is a parameter of the step.
 */
module AttemptProtocol {
  import opened Options
  import opened AttemptState

  datatype Stage = Connect | Tls | Kurd | Attach

  function EntryPhase(g: Stage): nat {
    match g
    case Connect => CONFIRMED
    case Tls => CONNECTED
    case Kurd => TLS
    case Attach => KURD
  }

  function ExitPhase(g: Stage): nat { EntryPhase(g) + 1 }

  datatype WorkerPc =
    | Top
    | Arm(serial: nat, deadline: Option<int>)
    | Park(serial: nat, deadline: Option<int>)
    | ExpireCall(serial: nat, deadline: Option<int>)
    | ParentCall
    | WorkerOwes
    | AwaitConnector
    | Take
    | CloseFd(fd: int, conn: bool)
    | CloseConn(conn: bool, failed: bool)
    | Retire(failed: bool)
    | CloseRawChan
    | CloseDoneChan
    | Finished

  datatype PreparePc =
    | PStart
    | PSignal
    | PCheck
    | PLease
    | POpen
    | PStore(fd: int)
    | PRelease
    | PWake
    | POver

  /** Where a caller thread is. */
  datatype CallPc =
    | Idle
    | Owing(owe: OwePc)
    | InStage(stage: Stage, at: StagePc)
    | Retiring(fin: FinishPc)
    | WaitDone
    | Running

  /** Outside the lock with a failure, a signal or a join still to come. */
  datatype OwePc = OweFail(status: int) | OweSignal | FacadeSignal | FacadeWait

  /** Between an accepted enterV1 and the section of leaveV1. */
  datatype StagePc =
    | StageSignal(deadline: int)
    | StageCheck(deadline: int)
    | Body
    | ConnLease
    | Leasing(conn: ConnectPc)
    | ConnSignal(ok: bool)
    | ConnPreface
    | AttachPump
    | AttachResult(ok: bool)
    | AttachBind(ok: bool)
    | Leaving(target: nat, failed: bool)

  /** connectV1 while it holds the connector lease. */
  datatype ConnectPc =
    | Dial(fd: int)
    | Adopt(fd: int)
    | Convert(fd: int)
    | Register(fd: int, got: bool)
    | FileClose(fd: int, got: bool)
    | Commit(fd: int, got: bool, closeFailed: bool)
    | Release(ok: bool)

  datatype FinishPc =
    | FinFail
    | FinSignal
    | FinService
    | FinPacket
    | FinCarrier
    | FinResult
    | FinConnector
    | FinCloser
    | FinOwned
    | FinCommit
    | FinClose

  /** Who holds the connector lease; history only, the code keeps a single flag. */
  datatype Lease = NoLease | PrepareLease | CallerLease(thread: nat)

  datatype HandOffKind = Published | Confirmed | Leased | Dialed

  /** One entry of the descriptor's protection history, with the terminal status then in force. */
  datatype HandOff = HandOff(kind: HandOffKind, fd: int, terminal: int)

  /** What the outside saw: sockets opened, descriptors closed, connections handed out and closed,
      whether any of those closes failed, and what FinishOwnedV1 last returned. */
  datatype Os = Os(
    sockets: seq<int>,
    fdCloses: seq<int>,
    connOpens: nat,
    connCloses: nat,
    closeFailed: bool,
    owned: Option<int>)

  function DescriptorClosed(o: Os, fd: int, failed: bool): Os {
    o.(fdCloses := o.fdCloses + [fd], closeFailed := o.closeFailed || failed)
  }

  function ConnectionClosed(o: Os, failed: bool): Os {
    o.(connCloses := o.connCloses + 1, closeFailed := o.closeFailed || failed)
  }

  /** History: which threads the flags busy, connectorActive, finishing and runActive stand for. */
  datatype Owners = Owners(stage: Option<nat>, lease: Lease, finisher: Option<nat>, runner: Option<nat>)

  datatype State = State(
    n: Shared,
    worker: WorkerPc,
    prepare: PreparePc,
    calls: map<nat, CallPc>,
    os: Os,
    who: Owners,
    log: seq<HandOff>)

  function Init(authority: int): State {
    State(Root(authority), Top, PStart, map[], Os([], [], 0, 0, false, None), Owners(None, NoLease, None, None), [])
  }

  function Pc(s: State, t: nat): CallPc { if t in s.calls then s.calls[t] else Idle }

  function At(s: State, t: nat, pc: CallPc): State { s.(calls := s.calls[t := pc]) }

  function Logged(s: State, kind: HandOffKind, fd: int): State {
    s.(log := s.log + [HandOff(kind, fd, s.n.life.terminal)])
  }

  // ----- close worker -----

  datatype WorkerStep =
    | WObserve
    | WArm(now: int)
    | WWake
    | WTimer
    | WParent
    | WExpire(now: int)
    | WFail
    | WSignal
    | WAwait
    | WTake
    | WCloseFd(failed: bool)
    | WCloseConn(failed: bool)
    | WRetire
    | WCloseRawChan
    | WCloseDoneChan

  function WorkerNext(s: State, e: WorkerStep): Option<State> {
    match (s.worker, e)
    case (Top, WObserve) =>
      Some(s.(n := WorkerObserve(s.n),
              worker := if s.n.life.terminal != 0 then AwaitConnector else Arm(s.n.clock.serial, s.n.clock.deadline)))
    case (Arm(serial, deadline), WArm(now)) =>
      Some(s.(worker := if deadline.Some? && deadline.value <= now then ExpireCall(serial, deadline)
                        else Park(serial, deadline)))
    case (Park(_, _), WWake) =>
      if s.n.wake then Some(s.(n := s.n.(wake := false), worker := Top)) else None
    case (Park(serial, deadline), WTimer) =>
      if deadline.Some? then Some(s.(worker := ExpireCall(serial, deadline))) else None
    case (Park(_, _), WParent) => Some(s.(worker := ParentCall))
    case (ExpireCall(serial, deadline), WExpire(now)) =>
      Some(s.(n := ExpireObserved(s.n, serial, deadline, now),
              worker := if ExpiryApplies(s.n, serial, deadline, now) then WorkerOwes else Top))
    case (ParentCall, WFail) => Some(s.(n := Fail(s.n, 7), worker := WorkerOwes))
    case (WorkerOwes, WSignal) => Some(s.(n := Signal(s.n), worker := Top))
    case (AwaitConnector, WAwait) =>
      if s.n.link.doneCloses > 0 then Some(s.(worker := Take)) else None
    case (Take, WTake) => Some(s.(n := WorkerTake(s.n), worker := CloseFd(s.n.link.fd, s.n.link.raw)))
    case (CloseFd(fd, conn), WCloseFd(failed)) =>
      if fd >= 0
      then Some(s.(os := DescriptorClosed(s.os, fd, failed), worker := CloseConn(conn, failed)))
      else Some(s.(worker := CloseConn(conn, false)))
    case (CloseConn(conn, before), WCloseConn(failed)) =>
      if conn
      then Some(s.(os := ConnectionClosed(s.os, failed), worker := Retire(before || failed)))
      else Some(s.(worker := Retire(before)))
    case (Retire(failed), WRetire) => Some(s.(n := WorkerCommit(s.n, failed), worker := CloseRawChan))
    case (CloseRawChan, WCloseRawChan) =>
      Some(s.(n := s.n.(ends := s.n.ends.(raw := s.n.ends.raw + 1)), worker := CloseDoneChan))
    case (CloseDoneChan, WCloseDoneChan) =>
      Some(s.(n := s.n.(ends := s.n.ends.(closer := s.n.ends.closer + 1)), worker := Finished))
    case _ => None
  }

  // ----- socket preparation -----

  datatype PrepareStep =
    | PrepDeadline(dialTimeout: int, now: int)
    | PrepSignal
    | PrepCheck(rejected: bool)
    | PrepLease
    | PrepOpen(socket: Option<int>)
    | PrepStore
    | PrepRelease
    | PrepWake

  function PrepareNext(s: State, e: PrepareStep): Option<State> {
    match (s.prepare, e)
    case (PStart, PrepDeadline(dial, now)) => Some(s.(n := PrepareDeadline(s.n, dial, now), prepare := PSignal))
    case (PSignal, PrepSignal) => Some(s.(n := Signal(s.n), prepare := PCheck))
    case (PCheck, PrepCheck(rejected)) => Some(s.(prepare := if rejected then POver else PLease))
    case (PLease, PrepLease) =>
      if PrepareMayLease(s.n)
      then Some(s.(n := s.n.(link := s.n.link.(active := true)), prepare := POpen,
                   who := s.who.(lease := PrepareLease)))
      else Some(s.(prepare := POver))
    case (POpen, PrepOpen(socket)) =>
      if socket.None? then Some(s.(prepare := PRelease))
      else if socket.value < 0 then None
      else Some(s.(os := s.os.(sockets := s.os.sockets + [socket.value]), prepare := PStore(socket.value)))
    case (PStore(fd), PrepStore) => Some(s.(n := s.n.(link := s.n.link.(fd := fd)), prepare := PRelease))
    case (PRelease, PrepRelease) =>
      Some(s.(n := PrepareRelease(s.n), prepare := PWake, who := s.who.(lease := NoLease)))
    case (PWake, PrepWake) => Some(s.(n := Signal(s.n), prepare := POver))
    case _ => None
  }

  // ----- callers -----

  datatype CallStep =
    | CallCloseWake
    | CallFacadeClose
    | CallFail
    | CallSignal
    | CallFacadeDone
    | CallSocketFD(now: int, later: int)
    | CallConfirm(fd: int, now: int, later: int)
    | CallEnter(stage: Stage, now: int, ctx: Option<int>)
    | CallCheck(now: int, revalidated: bool)
    | CallInputs(admitted: bool)
    | CallLease(sawCancel: bool)
    | CallDial(called: bool, ok: bool)
    | CallAdopt(ok: bool)
    | CallConvert(got: bool)
    | CallRegister
    | CallFileClose(failed: bool)
    | CallCommit(sawCancel: bool)
    | CallRelease
    | CallPreface(ok: bool)
    | CallWrite(wrote: bool, got: bool, ok: bool)
    | CallPump(asService: bool, got: bool, ok: bool)
    | CallDropResult
    | CallBind(ok: bool)
    | CallLeave(status: int)
    | CallFinish
    | CallDrop
    | CallJoin
    | CallFinishOwned(status: int)
    | CallFinishCommit
    | CallCloseDone
    | CallRun
    | CallRunEnd

  /** Publication and confirmation of the descriptor: one section each. */
  function ProtectNext(s: State, t: nat, e: CallStep): Option<State> {
    match e
    case CallSocketFD(now, later) =>
      var r := SocketFD(s.n, now, later);
      Some(At((if r.2 == 0 then Logged(s, Published, r.1) else s).(n := r.0), t, Idle))
    case CallConfirm(fd, now, later) =>
      var r := Confirm(s.n, fd, now, later);
      (match r.1
       case Stopped(_) => Some(At(s.(n := r.0), t, Idle))
       case Mismatch => Some(At(s, t, Owing(OweFail(16))))
       case Accepted => Some(At(Logged(s, Confirmed, fd).(n := r.0), t, Idle)))
    case _ => None
  }

  /** Everything else an idle thread may start. */
  function StartNext(s: State, t: nat, e: CallStep): Option<State> {
    match e
    case CallCloseWake => Some(At(s.(n := Fail(s.n, 7)), t, Owing(OweSignal)))
    case CallFacadeClose => Some(At(s.(n := Fail(s.n, 9)), t, Owing(FacadeSignal)))
    case CallEnter(g, now, ctx) =>
      var r := Enter(s.n, EntryPhase(g), now, ctx);
      (match r.1
       case Dead(_) => Some(At(s, t, Idle))
       case Refused => Some(At(s, t, Owing(OweFail(3))))
       case Admitted(d) => Some(At(s.(n := r.0, who := s.who.(stage := Some(t))), t, InStage(g, StageSignal(d)))))
    case CallFinish =>
      if FinishBusy(s.n) then Some(At(s, t, Idle))
      else if s.n.life.finishing then Some(At(s, t, WaitDone))
      else Some(At(s.(n := s.n.(life := s.n.life.(finishing := true)), who := s.who.(finisher := Some(t))),
                   t, Retiring(FinFail)))
    case CallRun =>
      if RunMayStart(s.n)
      then Some(At(s.(n := s.n.(life := s.n.life.(runStarted := true, runActive := true)),
                      who := s.who.(runner := Some(t))), t, Running))
      else Some(At(s, t, Idle))
    case _ => None
  }

  /** Failures and signals a thread still owes after it left the lock. */
  function OweNext(s: State, t: nat, pc: OwePc, e: CallStep): Option<State> {
    match (pc, e)
    case (OweFail(status), CallFail) => Some(At(s.(n := Fail(s.n, status)), t, Owing(OweSignal)))
    case (OweSignal, CallSignal) => Some(At(s.(n := Signal(s.n)), t, Idle))
    case (FacadeSignal, CallSignal) => Some(At(s.(n := Signal(s.n)), t, Owing(FacadeWait)))
    case (FacadeWait, CallFacadeDone) => if s.n.ends.raw > 0 then Some(At(s, t, Idle)) else None
    case _ => None
  }

  function Connecting(s: State, t: nat, pc: ConnectPc): State { At(s, t, InStage(Connect, Leasing(pc))) }

  /** The connector: connectV1 from its lease to the release of it. */
  function ConnectorNext(s: State, t: nat, pc: ConnectPc, e: CallStep): Option<State> {
    match (pc, e)
    case (Dial(fd), CallDial(called, ok)) =>
      var s1 := if called then Logged(s, Dialed, fd) else s;
      Some(Connecting(s1, t, if called && ok then Adopt(fd) else Release(false)))
    case (Adopt(fd), CallAdopt(ok)) => Some(Connecting(s, t, if ok then Convert(fd) else Release(false)))
    case (Convert(fd), CallConvert(got)) =>
      Some(Connecting(s.(os := s.os.(connOpens := s.os.connOpens + if got then 1 else 0)), t, Register(fd, got)))
    case (Register(fd, got), CallRegister) =>
      Some(Connecting(s.(n := s.n.(link := s.n.link.(raw := got))), t, FileClose(fd, got)))
    case (FileClose(fd, got), CallFileClose(failed)) =>
      Some(Connecting(s.(os := DescriptorClosed(s.os, fd, failed)), t, Commit(fd, got, failed)))
    case (Commit(fd, got, failed), CallCommit(sawCancel)) =>
      Some(Connecting(s.(n := ConnectCommit(s.n, failed)), t,
                      Release(s.n.life.terminal == 0 && !sawCancel && got && !failed)))
    case (Release(ok), CallRelease) =>
      Some(At(s.(n := ConnectRelease(s.n), who := s.who.(lease := NoLease)), t, InStage(Connect, ConnSignal(ok))))
    case _ => None
  }

  /** The rest of a stage, from the signal enterV1 owes to the section of leaveV1. */
  function StageNext(s: State, t: nat, g: Stage, pc: StagePc, e: CallStep): Option<State> {
    match (pc, e)
    case (StageSignal(d), CallSignal) => Some(At(s.(n := Signal(s.n)), t, InStage(g, StageCheck(d))))
    case (StageCheck(d), CallCheck(now, revalidated)) =>
      Some(At(s, t, InStage(g, if d <= now || !revalidated then Leaving(0, true) else Body)))
    case (Body, CallInputs(admitted)) =>
      if g == Connect
      then Some(At(s, t, InStage(g, if admitted then ConnLease else Leaving(CONNECTED, true))))
      else if g == Attach
      then Some(At(s, t, InStage(g, if admitted then AttachPump else AttachResult(false))))
      else None
    case (Body, CallWrite(wrote, got, ok)) =>
      if g == Tls
      then Some(At(s.(n := s.n.(kids := s.n.kids.(carrier := if wrote then got else s.n.kids.carrier))), t,
                   InStage(g, Leaving(TLS, !ok))))
      else if g == Kurd
      then Some(At(s.(n := s.n.(kids := s.n.kids.(result := if wrote then got else s.n.kids.result))), t,
                   InStage(g, Leaving(KURD, !ok))))
      else None
    case (ConnLease, CallLease(sawCancel)) =>
      if sawCancel || !ConnectMayLease(s.n) then Some(At(s, t, InStage(g, Leaving(CONNECTED, true))))
      else
        var leased := s.n.(link := s.n.link.(active := true));
        Some(Connecting(Logged(s, Leased, s.n.link.fd).(n := leased, who := s.who.(lease := CallerLease(t))),
                        t, Dial(s.n.link.fd)))
    case (ConnSignal(ok), CallSignal) =>
      Some(At(s.(n := Signal(s.n)), t, InStage(g, if ok then ConnPreface else Leaving(CONNECTED, true))))
    case (ConnPreface, CallPreface(ok)) => Some(At(s, t, InStage(g, Leaving(CONNECTED, !ok))))
    case (AttachPump, CallCheck(_, revalidated)) =>
      if revalidated then None else Some(At(s, t, InStage(g, Leaving(0, true))))
    case (AttachPump, CallPump(asService, got, ok)) =>
      var kids := if asService then s.n.kids.(service := got) else s.n.kids.(packet := got);
      Some(At(s.(n := s.n.(kids := kids)), t, InStage(g, AttachResult(ok))))
    case (AttachResult(ok), CallDropResult) =>
      Some(At(s.(n := s.n.(kids := s.n.kids.(result := false))), t, InStage(g, AttachBind(ok))))
    case (AttachBind(ok), CallBind(bound)) => Some(At(s, t, InStage(g, Leaving(ATTACHED, !(ok && bound)))))
    case (AttachBind(_), CallCheck(_, revalidated)) =>
      if revalidated then None else Some(At(s, t, InStage(g, Leaving(0, true))))
    case (Leaving(target, failed), CallLeave(status)) =>
      if failed && status == 0 then None
      else Some(At(s.(n := Leave(s.n, target, status).0, who := s.who.(stage := None)), t, Owing(OweSignal)))
    case _ => None
  }

  /** FinishV1 after it has claimed retirement. */
  function FinishNext(s: State, t: nat, pc: FinishPc, e: CallStep): Option<State> {
    match (pc, e)
    case (FinFail, CallFail) => Some(At(s.(n := Fail(s.n, 7)), t, Retiring(FinSignal)))
    case (FinSignal, CallSignal) => Some(At(s.(n := Signal(s.n)), t, Retiring(FinService)))
    case (FinService, CallDrop) => Some(At(s.(n := s.n.(kids := s.n.kids.(service := false))), t, Retiring(FinPacket)))
    case (FinPacket, CallDrop) => Some(At(s.(n := s.n.(kids := s.n.kids.(packet := false))), t, Retiring(FinCarrier)))
    case (FinCarrier, CallDrop) => Some(At(s.(n := s.n.(kids := s.n.kids.(carrier := false))), t, Retiring(FinResult)))
    case (FinResult, CallDrop) => Some(At(s.(n := s.n.(kids := s.n.kids.(result := false))), t, Retiring(FinConnector)))
    case (FinConnector, CallJoin) => if s.n.link.doneCloses > 0 then Some(At(s, t, Retiring(FinCloser))) else None
    case (FinCloser, CallJoin) => if s.n.ends.closer > 0 then Some(At(s, t, Retiring(FinOwned))) else None
    case (FinOwned, CallFinishOwned(status)) =>
      Some(At(s.(os := s.os.(owned := Some(status))), t, if status == 0 then Retiring(FinCommit) else Idle))
    case (FinCommit, CallFinishCommit) => Some(At(s.(n := FinishCommit(s.n)), t, Retiring(FinClose)))
    case (FinClose, CallCloseDone) => Some(At(s.(n := s.n.(ends := s.n.ends.(done := s.n.ends.done + 1))), t, Idle))
    case _ => None
  }

  function CallNext(s: State, t: nat, e: CallStep): Option<State> {
    match Pc(s, t)
    case Idle => if e.CallSocketFD? || e.CallConfirm? then ProtectNext(s, t, e) else StartNext(s, t, e)
    case Owing(pc) => OweNext(s, t, pc, e)
    case InStage(g, pc) => if pc.Leasing? then ConnectorNext(s, t, pc.conn, e) else StageNext(s, t, g, pc, e)
    case Retiring(pc) => FinishNext(s, t, pc, e)
    case WaitDone => if e.CallJoin? && s.n.ends.done > 0 then Some(At(s, t, Idle)) else None
    case Running =>
      if !e.CallRunEnd? then None
      else Some(At(s.(n := s.n.(life := s.n.life.(runActive := false)), who := s.who.(runner := None)), t, Idle))
  }

  // ----- runs -----

  datatype Step = WorkerDoes(w: WorkerStep) | PrepareDoes(p: PrepareStep) | CallDoes(thread: nat, c: CallStep)

  /** The state after one step, or None when the step cannot be taken. */
  function Next(s: State, e: Step): Option<State> {
    match e
    case WorkerDoes(w) => WorkerNext(s, w)
    case PrepareDoes(p) => PrepareNext(s, p)
    case CallDoes(t, c) => CallNext(s, t, c)
  }

  /** The state after a whole run, or None when some step of it could not be taken. */
  function Run(s: State, run: seq<Step>): Option<State>
    decreases run
  {
    if run == [] then Some(s)
    else
      var s1 := Next(s, run[0]);
      if s1.None? then None else Run(s1.value, run[1..])
  }
}

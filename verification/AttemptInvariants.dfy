/**
 The inductive invariant of the attempt transport, in nine named parts, and the
 proof that every step of every actor keeps it.
 */
module AttemptInvariants {
  import opened Options
  import opened AttemptState
  import opened AttemptProtocol

  /** The point of connectV1 the lease holder has reached. */
  function LeaseAt(s: State): Option<ConnectPc> {
    if s.who.lease.CallerLease? && s.who.lease.thread in s.calls && HoldsLease(s.calls[s.who.lease.thread])
    then Some(s.calls[s.who.lease.thread].at.conn) else None
  }

  predicate HoldsLease(pc: CallPc) { pc.InStage? && pc.at.Leasing? }

  predicate PrepareHoldsLease(pc: PreparePc) { pc.POpen? || pc.PStore? || pc.PRelease? }

  predicate WorkerPastLoop(pc: WorkerPc) {
    pc.AwaitConnector? || WorkerPastConnector(pc)
  }

  predicate WorkerPastConnector(pc: WorkerPc) { pc.Take? || WorkerPastTake(pc) }

  predicate WorkerPastTake(pc: WorkerPc) {
    pc.CloseFd? || pc.CloseConn? || pc.Retire? || WorkerPastRetire(pc)
  }

  predicate WorkerPastRetire(pc: WorkerPc) { pc.CloseRawChan? || pc.CloseDoneChan? || pc.Finished? }

  // ----- the nine parts -----

  /** The leaf context is cancelled exactly when a terminal status stands, and only an
      attached transport is without a deadline. */
  predicate LatchOk(s: State) {
    && PREPARED <= s.n.life.phase <= ATTACHED
    && (s.n.life.cancelled <==> s.n.life.terminal != 0)
    && (s.n.clock.deadline.None? <==> s.n.life.phase == ATTACHED)
    && forall t | t in s.calls && s.calls[t].Owing? && s.calls[t].owe.OweFail? ::
         s.calls[t].owe.status == 3 || s.calls[t].owe.status == 16
  }

  /** The flags busy, finishing and runActive each name at most one thread. */
  predicate OwnersOk(s: State) {
    && (s.n.life.busy <==> s.who.stage.Some?)
    && (s.n.life.finishing <==> s.who.finisher.Some?)
    && (s.n.life.runActive <==> s.who.runner.Some?)
    && (s.who.stage.Some? ==> Pc(s, s.who.stage.value).InStage?)
    && (s.who.runner.Some? ==> Pc(s, s.who.runner.value).Running?)
    && (forall t | t in s.calls ::
          && (s.calls[t].InStage? ==> s.who.stage == Some(t))
          && (s.calls[t].Retiring? ==> s.who.finisher == Some(t))
          && (s.calls[t].Running? ==> s.who.runner == Some(t)))
    && (s.n.life.finishing ==> !s.n.life.busy && !s.n.life.runActive)
    && (s.n.life.runStarted ==> s.n.life.phase == ATTACHED)
    && (s.n.life.runActive ==> s.n.life.runStarted)
  }

  predicate StagePointOk(n: Shared, g: Stage, pc: StagePc) {
    && n.life.phase == EntryPhase(g)
    && (pc.ConnLease? || pc.Leasing? || pc.ConnSignal? || pc.ConnPreface? ==> g == Connect)
    && (pc.AttachPump? || pc.AttachResult? || pc.AttachBind? ==> g == Attach)
    && (pc.Leaving? ==> pc.failed || pc.target == ExitPhase(g))
  }

  /** The stage in progress is the one the phase calls for. */
  predicate StageOk(s: State) {
    forall t | t in s.calls && s.calls[t].InStage? :: StagePointOk(s.n, s.calls[t].stage, s.calls[t].at)
  }

  /** One flag, one holder; a settled lease is never taken again. */
  predicate LeaseOk(s: State) {
    && (s.n.link.active <==> !s.who.lease.NoLease?)
    && (s.n.link.active ==> !s.n.link.settled)
    && s.n.link.doneCloses == (if s.n.link.settled then 1 else 0)
    && (PrepareHoldsLease(s.prepare) <==> s.who.lease.PrepareLease?)
    && (s.who.lease.CallerLease? ==> LeaseAt(s).Some?)
    && (forall t | t in s.calls && HoldsLease(s.calls[t]) :: s.who.lease == CallerLease(t))
  }

  /** The worker leaves its loop only on a terminal status, and then the connector has
      settled or is held by a thread that must settle it. */
  predicate WorkerOk(s: State) {
    && (WorkerPastLoop(s.worker) ==> s.n.life.terminal != 0 && (s.n.link.active || s.n.link.settled))
    && (WorkerPastConnector(s.worker) ==> s.n.link.settled)
    && (WorkerPastTake(s.worker) ==> s.n.link.fd == -1)
    && ((s.worker.CloseFd? || s.worker.CloseConn?) ==> s.worker.conn == s.n.link.raw)
    && (WorkerPastRetire(s.worker) ==> !s.n.link.raw)
    && s.n.ends.raw == (if s.worker.CloseDoneChan? || s.worker.Finished? then 1 else 0)
    && s.n.ends.closer == (if s.worker.Finished? then 1 else 0)
  }

  /** Someone still has to close the socket: the preparation that opened it, the transport
      that stores it, or the worker that took it. */
  predicate SocketHeld(s: State) {
    || s.prepare.PStore?
    || (s.n.link.fd >= 0 && !(LeaseAt(s).Some? && LeaseAt(s).value.Commit?))
    || (s.worker.CloseFd? && s.worker.fd >= 0)
  }

  predicate SocketOk(s: State) {
    && |s.os.sockets| <= 1
    && (forall i | 0 <= i < |s.os.sockets| :: s.os.sockets[i] >= 0)
    && (s.prepare.PStart? || s.prepare.PSignal? || s.prepare.PCheck? || s.prepare.PLease? || s.prepare.POpen? ==>
          s.os.sockets == [] && s.n.link.fd == -1)
    && (s.prepare.PStore? ==> s.os.sockets == [s.prepare.fd] && s.n.link.fd == -1)
    && s.n.link.fd >= -1
    && (s.n.link.fd >= 0 ==> s.os.sockets == [s.n.link.fd])
    && (s.worker.CloseFd? ==> s.worker.fd >= -1 && (s.worker.fd >= 0 ==> s.os.sockets == [s.worker.fd]))
    && (LeaseAt(s).Some? && !LeaseAt(s).value.Release? ==> LeaseAt(s).value.fd == s.n.link.fd >= 0)
    && s.os.fdCloses == (if SocketHeld(s) then [] else s.os.sockets)
  }

  /** Every connection the operating system handed out is registered, being registered, or closed. */
  predicate ConnOk(s: State) {
    var pc := LeaseAt(s);
    && s.os.connOpens == (if pc.Some? && pc.value.Register? && pc.value.got then 1 else 0)
                    + (if s.n.link.raw && !s.worker.Retire? then 1 else 0) + s.os.connCloses
    && s.os.connOpens <= 1
    && (!s.n.link.settled && !s.who.lease.CallerLease? ==> s.os.connOpens == 0)
    && (pc.Some? && (pc.value.Dial? || pc.value.Adopt? || pc.value.Convert?) ==> s.os.connOpens == 0)
    && (pc.Some? && pc.value.Register? ==> !s.n.link.raw)
    && (pc.Some? && (pc.value.FileClose? || pc.value.Commit?) ==> pc.value.got == s.n.link.raw)
    && (s.worker.Retire? || WorkerPastRetire(s.worker) ==> s.os.connCloses == s.os.connOpens)
  }

  /** What the retiring thread has already released. */
  predicate RetireOk(s: State) {
    && (forall t | t in s.calls && s.calls[t].Retiring? :: RetiredSoFar(s.n, s.calls[t].fin) && s.n.ends.done == 0)
    && (forall t | t in s.calls && s.calls[t].Retiring? && (s.calls[t].fin.FinCommit? || s.calls[t].fin.FinClose?) ::
          s.os.owned == Some(0))
    && s.n.ends.done <= 1
    && (s.n.ends.done == 1 ==> s.n.life.finishing && RetiredSoFar(s.n, FinClose) && s.os.owned == Some(0))
  }

  predicate RetiredSoFar(n: Shared, pc: FinishPc) {
    && (!pc.FinFail? ==> n.life.terminal != 0)
    && (!pc.FinFail? && !pc.FinSignal? && !pc.FinService? ==> !n.kids.service)
    && (pc.FinCarrier? || pc.FinResult? || Joining(pc) ==> !n.kids.packet)
    && (pc.FinResult? || Joining(pc) ==> !n.kids.carrier)
    && (Joining(pc) ==> !n.kids.result)
    && (Joining(pc) && !pc.FinConnector? ==> n.link.doneCloses > 0)
    && (Joining(pc) && !pc.FinConnector? && !pc.FinCloser? ==> n.ends.closer > 0)
    && (pc.FinClose? ==> n.life.finishStatus == if n.link.closeError then 9 else 0)
  }

  predicate Joining(pc: FinishPc) {
    pc.FinConnector? || pc.FinCloser? || pc.FinOwned? || pc.FinCommit? || pc.FinClose?
  }

  /** Position k of the protection history is its kind's turn, for the one socket there is. */
  function Turn(k: nat): HandOffKind {
    if k == 0 then Published else if k == 1 then Confirmed else if k == 2 then Leased else Dialed
  }

  predicate HandOffOk(s: State) {
    && |s.log| <= 4
    && (forall k | 0 <= k < |s.log| ::
          s.log[k].kind == Turn(k) && s.os.sockets == [s.log[k].fd] && (k < 3 ==> s.log[k].terminal == 0))
    && (|s.log| >= 1 <==> s.n.life.phase >= PUBLISHED)
    && (|s.log| >= 2 <==> s.n.life.phase >= CONFIRMED)
    && (!s.n.link.settled && !s.who.lease.CallerLease? ==> |s.log| <= 2)
    && (LeaseAt(s).Some? && LeaseAt(s).value.Dial? ==> |s.log| == 3)
    && (s.n.life.phase >= PUBLISHED ==> s.prepare.PRelease? || s.prepare.PWake? || s.prepare.POver?)
  }

  ghost predicate Inv(s: State) {
    && LatchOk(s) && OwnersOk(s) && StageOk(s) && LeaseOk(s) && WorkerOk(s)
    && SocketOk(s) && ConnOk(s) && RetireOk(s) && HandOffOk(s)
  }

  lemma InitKeeps(authority: int)
    ensures Inv(Init(authority))
  {}

  // ----- the close worker and the socket preparation -----

  lemma WorkerKeepsLatch(s: State, e: WorkerStep, s': State)
    requires LatchOk(s)
    requires WorkerNext(s, e) == Some(s')
    ensures LatchOk(s')
  {}

  lemma WorkerKeepsOwners(s: State, e: WorkerStep, s': State)
    requires LatchOk(s) && OwnersOk(s) && StageOk(s)
    requires WorkerNext(s, e) == Some(s')
    ensures OwnersOk(s') && StageOk(s')
  {
    assert s'.calls == s.calls && s'.who == s.who;
  }

  lemma WorkerKeepsLease(s: State, e: WorkerStep, s': State)
    requires LeaseOk(s)
    requires WorkerNext(s, e) == Some(s')
    ensures LeaseOk(s')
  {}

  lemma WorkerKeepsWorker(s: State, e: WorkerStep, s': State)
    requires LatchOk(s) && LeaseOk(s) && WorkerOk(s)
    requires WorkerNext(s, e) == Some(s')
    ensures WorkerOk(s')
  {}

  lemma WorkerKeepsSocket(s: State, e: WorkerStep, s': State)
    requires LeaseOk(s) && WorkerOk(s) && SocketOk(s)
    requires WorkerNext(s, e) == Some(s')
    ensures SocketOk(s')
  {}

  lemma WorkerKeepsConn(s: State, e: WorkerStep, s': State)
    requires LeaseOk(s) && WorkerOk(s) && ConnOk(s)
    requires WorkerNext(s, e) == Some(s')
    ensures ConnOk(s')
  {}

  lemma WorkerKeepsRetire(s: State, e: WorkerStep, s': State)
    requires LeaseOk(s) && WorkerOk(s) && RetireOk(s)
    requires WorkerNext(s, e) == Some(s')
    ensures RetireOk(s')
  {}

  lemma WorkerKeepsHandOff(s: State, e: WorkerStep, s': State)
    requires LeaseOk(s) && HandOffOk(s)
    requires WorkerNext(s, e) == Some(s')
    ensures HandOffOk(s')
  {
    assert s'.calls == s.calls && s'.who == s.who && LeaseAt(s') == LeaseAt(s);
  }

  lemma WorkerKeeps(s: State, e: WorkerStep, s': State)
    requires Inv(s) && WorkerNext(s, e) == Some(s')
    ensures Inv(s')
  {
    WorkerKeepsLatch(s, e, s');
    WorkerKeepsOwners(s, e, s');
    WorkerKeepsLease(s, e, s');
    WorkerKeepsWorker(s, e, s');
    WorkerKeepsSocket(s, e, s');
    WorkerKeepsConn(s, e, s');
    WorkerKeepsRetire(s, e, s');
    WorkerKeepsHandOff(s, e, s');
  }

  lemma PrepareKeepsLatch(s: State, e: PrepareStep, s': State)
    requires LatchOk(s) && HandOffOk(s)
    requires PrepareNext(s, e) == Some(s')
    ensures LatchOk(s')
  {}

  lemma PrepareKeepsOwners(s: State, e: PrepareStep, s': State)
    requires OwnersOk(s) && StageOk(s)
    requires PrepareNext(s, e) == Some(s')
    ensures OwnersOk(s') && StageOk(s')
  {}

  lemma PrepareKeepsLease(s: State, e: PrepareStep, s': State)
    requires LeaseOk(s)
    requires PrepareNext(s, e) == Some(s')
    ensures LeaseOk(s')
  {}

  lemma PrepareKeepsWorker(s: State, e: PrepareStep, s': State)
    requires LatchOk(s) && LeaseOk(s) && WorkerOk(s) && SocketOk(s)
    requires PrepareNext(s, e) == Some(s')
    ensures WorkerOk(s')
  {}

  lemma PrepareKeepsSocket(s: State, e: PrepareStep, s': State)
    requires LeaseOk(s) && WorkerOk(s) && SocketOk(s)
    requires PrepareNext(s, e) == Some(s')
    ensures SocketOk(s')
  {
    assert s.prepare.PStore? ==> s.os.sockets[0] == s.prepare.fd;
    if s.prepare.POpen? && e.socket.Some? {
      assert s.os.sockets + [e.socket.value] == [e.socket.value];
    }
  }

  lemma PrepareKeepsConn(s: State, e: PrepareStep, s': State)
    requires LeaseOk(s) && ConnOk(s)
    requires PrepareNext(s, e) == Some(s')
    ensures ConnOk(s')
  {}

  lemma PrepareKeepsRetire(s: State, e: PrepareStep, s': State)
    requires LeaseOk(s) && RetireOk(s)
    requires PrepareNext(s, e) == Some(s')
    ensures RetireOk(s')
  {}

  lemma PrepareKeepsHandOff(s: State, e: PrepareStep, s': State)
    requires LeaseOk(s) && SocketOk(s) && HandOffOk(s)
    requires PrepareNext(s, e) == Some(s')
    ensures HandOffOk(s')
  {}

  lemma PrepareKeeps(s: State, e: PrepareStep, s': State)
    requires Inv(s) && PrepareNext(s, e) == Some(s')
    ensures Inv(s')
  {
    PrepareKeepsLatch(s, e, s');
    PrepareKeepsOwners(s, e, s');
    PrepareKeepsLease(s, e, s');
    PrepareKeepsWorker(s, e, s');
    PrepareKeepsSocket(s, e, s');
    PrepareKeepsConn(s, e, s');
    PrepareKeepsRetire(s, e, s');
    PrepareKeepsHandOff(s, e, s');
  }

  // ----- callers -----

  /** A caller's step away from the lease: the descriptor, the connection, the lease and the
      worker are untouched, and a terminal status stays. */
  predicate Quiet(s: State, t: nat, s': State) {
    && s'.worker == s.worker && s'.prepare == s.prepare && s'.who.lease == s.who.lease
        && s'.os == s.os.(owned := s'.os.owned)
    && s'.n.link == s.n.link && s'.n.ends.raw == s.n.ends.raw && s'.n.ends.closer == s.n.ends.closer
    && (s.n.life.terminal != 0 ==> s'.n.life.terminal != 0)
    && t in s'.calls && s'.calls == s.calls[t := s'.calls[t]]
    && !HoldsLease(Pc(s, t)) && !HoldsLease(s'.calls[t])
  }

  lemma QuietKeeps(s: State, t: nat, s': State)
    requires LeaseOk(s) && WorkerOk(s) && SocketOk(s) && ConnOk(s) && Quiet(s, t, s')
    ensures LeaseOk(s') && WorkerOk(s') && SocketOk(s') && ConnOk(s') && LeaseAt(s') == LeaseAt(s)
  {}

  /** The step adds nothing to the protection history. */
  predicate NoHandOff(s: State, s': State) {
    && s'.log == s.log
    && (s'.n.life.phase >= PUBLISHED <==> s.n.life.phase >= PUBLISHED)
    && (s'.n.life.phase >= CONFIRMED <==> s.n.life.phase >= CONFIRMED)
  }

  lemma QuietKeepsHandOff(s: State, t: nat, s': State)
    requires HandOffOk(s) && Quiet(s, t, s') && NoHandOff(s, s')
    ensures HandOffOk(s')
  {
    assert LeaseAt(s') == LeaseAt(s);
  }

  predicate SameRole(a: CallPc, b: CallPc) {
    (a.InStage? <==> b.InStage?) && (a.Retiring? <==> b.Retiring?) && (a.Running? <==> b.Running?)
  }

  /** A caller moves within its role and the admission flags stay. */
  lemma RoleFrame(s: State, t: nat, s': State)
    requires OwnersOk(s)
    requires t in s'.calls && s'.calls == s.calls[t := s'.calls[t]] && SameRole(Pc(s, t), s'.calls[t])
    requires s'.who.stage == s.who.stage && s'.who.finisher == s.who.finisher && s'.who.runner == s.who.runner
    requires s'.n.life.busy == s.n.life.busy && s'.n.life.finishing == s.n.life.finishing
    requires s'.n.life.runActive == s.n.life.runActive && s'.n.life.runStarted == s.n.life.runStarted
    requires s.n.life.runStarted ==> s'.n.life.phase == s.n.life.phase
    ensures OwnersOk(s')
  {}

  lemma ProtectQuiet(s: State, t: nat, e: CallStep, s': State)
    requires Pc(s, t) == Idle && ProtectNext(s, t, e) == Some(s')
    requires LatchOk(s)
    ensures Quiet(s, t, s')
  {}

  lemma StartQuiet(s: State, t: nat, e: CallStep, s': State)
    requires Pc(s, t) == Idle && StartNext(s, t, e) == Some(s')
    requires LatchOk(s)
    ensures Quiet(s, t, s') && NoHandOff(s, s')
  {}

  lemma OweQuiet(s: State, t: nat, pc: OwePc, e: CallStep, s': State)
    requires Pc(s, t) == Owing(pc) && OweNext(s, t, pc, e) == Some(s')
    requires LatchOk(s)
    ensures Quiet(s, t, s') && NoHandOff(s, s')
  {}

  lemma FinishQuiet(s: State, t: nat, pc: FinishPc, e: CallStep, s': State)
    requires Pc(s, t) == Retiring(pc) && FinishNext(s, t, pc, e) == Some(s')
    requires LatchOk(s)
    ensures Quiet(s, t, s') && NoHandOff(s, s')
  {}

  lemma StageQuiet(s: State, t: nat, g: Stage, pc: StagePc, e: CallStep, s': State)
    requires Pc(s, t) == InStage(g, pc) && !pc.Leasing? && StageNext(s, t, g, pc, e) == Some(s')
             && s'.n.link == s.n.link
    requires LatchOk(s) && OwnersOk(s) && StageOk(s)
    ensures Quiet(s, t, s') && NoHandOff(s, s')
  {}

  lemma ProtectKeepsLatch(s: State, t: nat, e: CallStep, s': State)
    requires Pc(s, t) == Idle && ProtectNext(s, t, e) == Some(s')
    requires LatchOk(s) && OwnersOk(s) && StageOk(s)
    ensures LatchOk(s')
  {}

  lemma ProtectKeepsOwners(s: State, t: nat, e: CallStep, s': State)
    requires Pc(s, t) == Idle && ProtectNext(s, t, e) == Some(s')
    requires LatchOk(s) && OwnersOk(s) && StageOk(s)
    ensures OwnersOk(s') && StageOk(s')
  {
    RoleFrame(s, t, s');
  }

  lemma ProtectKeepsRetire(s: State, t: nat, e: CallStep, s': State)
    requires Pc(s, t) == Idle && ProtectNext(s, t, e) == Some(s')
    requires OwnersOk(s) && LeaseOk(s) && WorkerOk(s) && RetireOk(s)
    ensures RetireOk(s')
  {}

  lemma ProtectKeepsHandOff(s: State, t: nat, e: CallStep, s': State)
    requires Pc(s, t) == Idle && ProtectNext(s, t, e) == Some(s')
    requires LatchOk(s) && OwnersOk(s) && StageOk(s) && LeaseOk(s) && SocketOk(s) && HandOffOk(s)
    ensures HandOffOk(s')
  {
    ProtectQuiet(s, t, e, s');
    if s'.log == s.log {
      QuietKeepsHandOff(s, t, s');
    } else {
      assert LeaseAt(s') == LeaseAt(s);
    }
  }

  lemma StartKeepsLatch(s: State, t: nat, e: CallStep, s': State)
    requires Pc(s, t) == Idle && StartNext(s, t, e) == Some(s')
    requires LatchOk(s) && OwnersOk(s) && StageOk(s)
    ensures LatchOk(s')
  {}

  lemma StartKeepsOwners(s: State, t: nat, e: CallStep, s': State)
    requires Pc(s, t) == Idle && StartNext(s, t, e) == Some(s')
    requires LatchOk(s) && OwnersOk(s) && StageOk(s)
    ensures OwnersOk(s') && StageOk(s')
  {}

  lemma StartKeepsRetire(s: State, t: nat, e: CallStep, s': State)
    requires Pc(s, t) == Idle && StartNext(s, t, e) == Some(s')
    requires OwnersOk(s) && LeaseOk(s) && WorkerOk(s) && RetireOk(s)
    ensures RetireOk(s')
  {}

  lemma OweKeepsLatch(s: State, t: nat, pc: OwePc, e: CallStep, s': State)
    requires Pc(s, t) == Owing(pc) && OweNext(s, t, pc, e) == Some(s')
    requires LatchOk(s) && OwnersOk(s) && StageOk(s)
    ensures LatchOk(s')
  {}

  lemma OweKeepsOwners(s: State, t: nat, pc: OwePc, e: CallStep, s': State)
    requires Pc(s, t) == Owing(pc) && OweNext(s, t, pc, e) == Some(s')
    requires LatchOk(s) && OwnersOk(s) && StageOk(s)
    ensures OwnersOk(s') && StageOk(s')
  {
    RoleFrame(s, t, s');
  }

  lemma OweKeepsRetire(s: State, t: nat, pc: OwePc, e: CallStep, s': State)
    requires Pc(s, t) == Owing(pc) && OweNext(s, t, pc, e) == Some(s')
    requires OwnersOk(s) && LeaseOk(s) && WorkerOk(s) && RetireOk(s)
    ensures RetireOk(s')
  {}

  lemma ConnectorKeepsLatch(s: State, t: nat, pc: ConnectPc, e: CallStep, s': State)
    requires Pc(s, t) == InStage(Connect, Leasing(pc)) && ConnectorNext(s, t, pc, e) == Some(s')
    requires LatchOk(s) && OwnersOk(s) && StageOk(s)
    ensures LatchOk(s')
  {}

  lemma ConnectorKeepsOwners(s: State, t: nat, pc: ConnectPc, e: CallStep, s': State)
    requires Pc(s, t) == InStage(Connect, Leasing(pc)) && ConnectorNext(s, t, pc, e) == Some(s')
    requires LatchOk(s) && OwnersOk(s) && StageOk(s)
    ensures OwnersOk(s') && StageOk(s')
  {}

  lemma ConnectorKeepsRetire(s: State, t: nat, pc: ConnectPc, e: CallStep, s': State)
    requires Pc(s, t) == InStage(Connect, Leasing(pc)) && ConnectorNext(s, t, pc, e) == Some(s')
    requires OwnersOk(s) && LeaseOk(s) && WorkerOk(s) && RetireOk(s)
    ensures RetireOk(s')
  {}

  lemma ConnectorKeepsHandOff(s: State, t: nat, pc: ConnectPc, e: CallStep, s': State)
    requires Pc(s, t) == InStage(Connect, Leasing(pc)) && ConnectorNext(s, t, pc, e) == Some(s')
    requires LatchOk(s) && OwnersOk(s) && StageOk(s) && LeaseOk(s) && SocketOk(s) && HandOffOk(s)
    ensures HandOffOk(s')
  {}

  lemma StageKeepsLatch(s: State, t: nat, g: Stage, pc: StagePc, e: CallStep, s': State)
    requires Pc(s, t) == InStage(g, pc) && !pc.Leasing? && StageNext(s, t, g, pc, e) == Some(s')
    requires LatchOk(s) && OwnersOk(s) && StageOk(s)
    ensures LatchOk(s')
  {}

  lemma StageKeepsOwners(s: State, t: nat, g: Stage, pc: StagePc, e: CallStep, s': State)
    requires Pc(s, t) == InStage(g, pc) && !pc.Leasing? && StageNext(s, t, g, pc, e) == Some(s')
    requires LatchOk(s) && OwnersOk(s) && StageOk(s)
    ensures OwnersOk(s') && StageOk(s')
  {
    if !pc.Leaving? {
      RoleFrame(s, t, s');
    }
  }

  lemma StageLeavesRetirement(s: State, t: nat, g: Stage, pc: StagePc, e: CallStep, s': State)
    requires StageNext(s, t, g, pc, e) == Some(s')
    ensures s'.n.ends == s.n.ends && t in s'.calls && s'.calls == s.calls[t := s'.calls[t]] && !s'.calls[t].Retiring?
  {}

  /** While a stage is in progress nobody retires. */
  lemma StageKeepsRetire(s: State, t: nat, g: Stage, pc: StagePc, e: CallStep, s': State)
    requires Pc(s, t) == InStage(g, pc) && !pc.Leasing? && StageNext(s, t, g, pc, e) == Some(s')
    requires OwnersOk(s) && RetireOk(s)
    ensures RetireOk(s')
  {
    StageLeavesRetirement(s, t, g, pc, e, s');
    assert !s.n.life.finishing;
    assert forall u | u in s.calls :: !s.calls[u].Retiring?;
  }

  lemma FinishKeepsLatch(s: State, t: nat, pc: FinishPc, e: CallStep, s': State)
    requires Pc(s, t) == Retiring(pc) && FinishNext(s, t, pc, e) == Some(s')
    requires LatchOk(s) && OwnersOk(s) && StageOk(s)
    ensures LatchOk(s')
  {}

  lemma FinishKeepsOwners(s: State, t: nat, pc: FinishPc, e: CallStep, s': State)
    requires Pc(s, t) == Retiring(pc) && FinishNext(s, t, pc, e) == Some(s')
    requires LatchOk(s) && OwnersOk(s) && StageOk(s)
    ensures OwnersOk(s') && StageOk(s')
  {}

  /** The retiring thread up to its joins, and from them on. */
  lemma DropKeepsRetire(s: State, t: nat, pc: FinishPc, e: CallStep, s': State)
    requires Pc(s, t) == Retiring(pc) && !Joining(pc) && FinishNext(s, t, pc, e) == Some(s')
    requires OwnersOk(s) && RetireOk(s)
    ensures RetireOk(s')
  {}

  lemma JoinKeepsRetire(s: State, t: nat, pc: FinishPc, e: CallStep, s': State)
    requires Pc(s, t) == Retiring(pc) && Joining(pc) && FinishNext(s, t, pc, e) == Some(s')
    requires OwnersOk(s) && RetireOk(s)
    ensures RetireOk(s')
  {}

  lemma FinishKeepsRetire(s: State, t: nat, pc: FinishPc, e: CallStep, s': State)
    requires Pc(s, t) == Retiring(pc) && FinishNext(s, t, pc, e) == Some(s')
    requires OwnersOk(s) && RetireOk(s)
    ensures RetireOk(s')
  {
    if Joining(pc) {
      JoinKeepsRetire(s, t, pc, e, s');
    } else {
      DropKeepsRetire(s, t, pc, e, s');
    }
  }

  lemma ConnectorKeepsLease(s: State, t: nat, pc: ConnectPc, e: CallStep, s': State)
    requires Pc(s, t) == InStage(Connect, Leasing(pc)) && ConnectorNext(s, t, pc, e) == Some(s')
    requires StageOk(s) && LeaseOk(s) && WorkerOk(s) && SocketOk(s) && ConnOk(s)
    ensures LeaseOk(s')
  {}

  lemma ConnectorKeepsWorker(s: State, t: nat, pc: ConnectPc, e: CallStep, s': State)
    requires Pc(s, t) == InStage(Connect, Leasing(pc)) && ConnectorNext(s, t, pc, e) == Some(s')
    requires StageOk(s) && LeaseOk(s) && WorkerOk(s) && SocketOk(s) && ConnOk(s)
    ensures WorkerOk(s')
  {}

  lemma ConnectorKeepsSocket(s: State, t: nat, pc: ConnectPc, e: CallStep, s': State)
    requires Pc(s, t) == InStage(Connect, Leasing(pc)) && ConnectorNext(s, t, pc, e) == Some(s')
    requires StageOk(s) && LeaseOk(s) && WorkerOk(s) && SocketOk(s) && ConnOk(s)
    ensures SocketOk(s')
  {}

  lemma ConnectorKeepsConn(s: State, t: nat, pc: ConnectPc, e: CallStep, s': State)
    requires Pc(s, t) == InStage(Connect, Leasing(pc)) && ConnectorNext(s, t, pc, e) == Some(s')
    requires StageOk(s) && LeaseOk(s) && WorkerOk(s) && SocketOk(s) && ConnOk(s)
    ensures ConnOk(s')
  {}

  lemma StageKeepsRest(s: State, t: nat, g: Stage, pc: StagePc, e: CallStep, s': State)
    requires Pc(s, t) == InStage(g, pc) && !pc.Leasing? && StageNext(s, t, g, pc, e) == Some(s')
             && s'.n.link != s.n.link
    requires StageOk(s) && LeaseOk(s) && WorkerOk(s) && SocketOk(s) && ConnOk(s) && HandOffOk(s)
    ensures LeaseOk(s') && WorkerOk(s') && SocketOk(s') && ConnOk(s') && HandOffOk(s')
  {}

  lemma CallKeeps(s: State, t: nat, e: CallStep, s': State)
    requires Inv(s) && CallNext(s, t, e) == Some(s')
    ensures Inv(s')
  {
    match Pc(s, t)
    case Idle =>
      if e.CallSocketFD? || e.CallConfirm? {
        ProtectQuiet(s, t, e, s');
        QuietKeeps(s, t, s');
        ProtectKeepsLatch(s, t, e, s');
        ProtectKeepsOwners(s, t, e, s');
        ProtectKeepsRetire(s, t, e, s');
        ProtectKeepsHandOff(s, t, e, s');
      } else {
        StartQuiet(s, t, e, s');
        QuietKeeps(s, t, s');
        StartKeepsLatch(s, t, e, s');
        StartKeepsOwners(s, t, e, s');
        StartKeepsRetire(s, t, e, s');
        QuietKeepsHandOff(s, t, s');
      }
    case Owing(pc) =>
      OweQuiet(s, t, pc, e, s');
      QuietKeeps(s, t, s');
      OweKeepsLatch(s, t, pc, e, s');
      OweKeepsOwners(s, t, pc, e, s');
      OweKeepsRetire(s, t, pc, e, s');
      QuietKeepsHandOff(s, t, s');
    case InStage(g, pc) => StageStepKeeps(s, t, e, s');
    case Retiring(pc) =>
      FinishQuiet(s, t, pc, e, s');
      QuietKeeps(s, t, s');
      FinishKeepsLatch(s, t, pc, e, s');
      FinishKeepsOwners(s, t, pc, e, s');
      FinishKeepsRetire(s, t, pc, e, s');
      QuietKeepsHandOff(s, t, s');
    case WaitDone => EndKeeps(s, t, e, s');
    case Running => EndKeeps(s, t, e, s');
  }

  lemma StageStepKeeps(s: State, t: nat, e: CallStep, s': State)
    requires Inv(s) && CallNext(s, t, e) == Some(s') && Pc(s, t).InStage?
    ensures Inv(s')
  {
    var g, pc := Pc(s, t).stage, Pc(s, t).at;
    if pc.Leasing? {
      ConnectorKeepsLatch(s, t, pc.conn, e, s');
      ConnectorKeepsOwners(s, t, pc.conn, e, s');
      ConnectorKeepsRetire(s, t, pc.conn, e, s');
      ConnectorKeepsHandOff(s, t, pc.conn, e, s');
      ConnectorKeepsLease(s, t, pc.conn, e, s');
      ConnectorKeepsWorker(s, t, pc.conn, e, s');
      ConnectorKeepsSocket(s, t, pc.conn, e, s');
      ConnectorKeepsConn(s, t, pc.conn, e, s');
    } else {
      StageKeepsLatch(s, t, g, pc, e, s');
      StageKeepsOwners(s, t, g, pc, e, s');
      StageKeepsRetire(s, t, g, pc, e, s');
      if s'.n.link == s.n.link {
        StageQuiet(s, t, g, pc, e, s');
        QuietKeeps(s, t, s');
        QuietKeepsHandOff(s, t, s');
      } else {
        StageKeepsRest(s, t, g, pc, e, s');
      }
    }
  }

  /** A second finisher that joined, and the end of RunV1. */
  lemma EndKeeps(s: State, t: nat, e: CallStep, s': State)
    requires Inv(s) && CallNext(s, t, e) == Some(s') && (Pc(s, t).WaitDone? || Pc(s, t).Running?)
    ensures Inv(s')
  {
    QuietKeeps(s, t, s');
    QuietKeepsHandOff(s, t, s');
  }

  /** Every step of every actor keeps the invariant. */
  lemma NextKeeps(s: State, e: Step, s': State)
    requires Inv(s) && Next(s, e) == Some(s')
    ensures Inv(s')
  {
    match e
    case WorkerDoes(w) => WorkerKeeps(s, w, s');
    case PrepareDoes(p) => PrepareKeeps(s, p, s');
    case CallDoes(t, c) => CallKeeps(s, t, c, s');
  }
}

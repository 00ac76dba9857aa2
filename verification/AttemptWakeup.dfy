/**
 No lost wake-up, and no stuck worker: a parked worker whose snapshot is out of date
 has a token waiting or coming, and from every reachable state with a verdict the
 worker, the lease holder and the threads that owe a signal can bring it to its end.
 */
module AttemptWakeup {
  import opened Options
  import opened AttemptState
  import opened AttemptProtocol
  import opened AttemptInvariants

  /** A thread that has left the lock and has yet to send the wake signal. */
  predicate Owes(pc: CallPc) {
    || (pc.Owing? && (pc.owe.OweSignal? || pc.owe.FacadeSignal?))
    || (pc.InStage? && (pc.at.StageSignal? || pc.at.ConnSignal?))
    || (pc.Retiring? && pc.fin.FinSignal?)
  }

  ghost predicate SignalOwed(s: State) {
    s.prepare.PSignal? || s.prepare.PWake? || exists t :: t in s.calls && Owes(s.calls[t])
  }

  /** The worker sleeps, or is about to, on a verdict, serial or deadline that has since changed. */
  predicate ParkedStale(s: State) {
    && (s.worker.Arm? || s.worker.Park?)
    && (s.n.life.terminal != 0 || s.n.clock.serial != s.worker.serial || s.n.clock.deadline != s.worker.deadline)
  }

  ghost predicate WakeOk(s: State) { ParkedStale(s) ==> s.n.wake || SignalOwed(s) }

  /** A caller's step leaves a token, owes one, or changes nothing the worker watches. */
  predicate Announced(s: State, t: nat, s': State) {
    && s'.worker == s.worker && s'.prepare == s.prepare
    && t in s'.calls && s'.calls == s.calls[t := s'.calls[t]]
    && (|| s'.n.wake
        || Owes(s'.calls[t])
        || (&& s'.n.clock == s.n.clock && s'.n.life.terminal == s.n.life.terminal
            && s'.n.wake == s.n.wake && !Owes(Pc(s, t))))
  }

  lemma AnnouncedKeeps(s: State, t: nat, s': State)
    requires WakeOk(s) && Announced(s, t, s')
    ensures WakeOk(s')
  {
    if ParkedStale(s') && !s'.n.wake && !Owes(s'.calls[t]) && !s.prepare.PSignal? && !s.prepare.PWake? {
      var u :| u in s.calls && Owes(s.calls[u]);
      assert u != t && s'.calls[u] == s.calls[u];
    }
  }

  lemma IdleAnnounces(s: State, t: nat, e: CallStep, s': State)
    requires Pc(s, t).Idle? && (ProtectNext(s, t, e) == Some(s') || StartNext(s, t, e) == Some(s'))
    ensures Announced(s, t, s')
  {}

  lemma ConnectorAnnounces(s: State, t: nat, pc: ConnectPc, e: CallStep, s': State)
    requires Pc(s, t) == InStage(Connect, Leasing(pc)) && ConnectorNext(s, t, pc, e) == Some(s')
    ensures Announced(s, t, s')
  {}

  lemma StageAnnounces(s: State, t: nat, g: Stage, pc: StagePc, e: CallStep, s': State)
    requires Pc(s, t) == InStage(g, pc) && StageNext(s, t, g, pc, e) == Some(s')
    ensures Announced(s, t, s')
  {}

  lemma FinishAnnounces(s: State, t: nat, pc: FinishPc, e: CallStep, s': State)
    requires Pc(s, t) == Retiring(pc) && FinishNext(s, t, pc, e) == Some(s')
    ensures Announced(s, t, s')
  {}

  lemma CallAnnounces(s: State, t: nat, e: CallStep, s': State)
    requires StageOk(s) && CallNext(s, t, e) == Some(s')
    ensures Announced(s, t, s')
  {
    match Pc(s, t)
    case Idle => IdleAnnounces(s, t, e, s');
    case Owing(pc) =>
    case InStage(g, pc) =>
      if pc.Leasing? {
        ConnectorAnnounces(s, t, pc.conn, e, s');
      } else {
        StageAnnounces(s, t, g, pc, e, s');
      }
    case Retiring(pc) => FinishAnnounces(s, t, pc, e, s');
    case WaitDone =>
    case Running =>
  }

  lemma WorkerKeepsWake(s: State, e: WorkerStep, s': State)
    requires WakeOk(s) && WorkerNext(s, e) == Some(s')
    ensures WakeOk(s')
  {
    assert s'.calls == s.calls && s'.prepare == s.prepare;
  }

  lemma PrepareKeepsWake(s: State, e: PrepareStep, s': State)
    requires WakeOk(s) && PrepareNext(s, e) == Some(s')
    ensures WakeOk(s')
  {
    assert s'.calls == s.calls && s'.worker == s.worker;
  }

  lemma NextKeepsWake(s: State, e: Step, s': State)
    requires StageOk(s) && WakeOk(s) && Next(s, e) == Some(s')
    ensures WakeOk(s')
  {
    match e
    case WorkerDoes(w) => WorkerKeepsWake(s, w, s');
    case PrepareDoes(p) => PrepareKeepsWake(s, p, s');
    case CallDoes(t, c) =>
      CallAnnounces(s, t, c, s');
      AnnouncedKeeps(s, t, s');
  }

  // ----- every verdict can be carried through -----

  function WorkerRank(pc: WorkerPc): nat {
    match pc
    case Arm(_, _) => 12
    case Park(_, _) => 11
    case ParentCall => 10
    case ExpireCall(_, _) => 10
    case WorkerOwes => 9
    case Top => 8
    case AwaitConnector => 7
    case Take => 6
    case CloseFd(_, _) => 5
    case CloseConn(_, _) => 4
    case Retire(_) => 3
    case CloseRawChan => 2
    case CloseDoneChan => 1
    case Finished => 0
  }

  /** How far the lease holder is from settling the connector. */
  function LeaseRank(s: State): nat {
    match s.who.lease
    case NoLease => 0
    case PrepareLease => if s.prepare.POpen? then 3 else if s.prepare.PStore? then 2 else 1
    case CallerLease(_) =>
      if LeaseAt(s).None? then 0 else
      match LeaseAt(s).value
      case Dial(_) => 7
      case Adopt(_) => 6
      case Convert(_) => 5
      case Register(_, _) => 4
      case FileClose(_, _) => 3
      case Commit(_, _, _) => 2
      case Release(_) => 1
  }

  function Rank(s: State): nat { 20 * WorkerRank(s.worker) + LeaseRank(s) + if s.n.wake then 0 else 1 }

  /** The steps that matter once there is a verdict: the worker's, the lease holder's, and a signal
      that is owed while no token is buffered. */
  predicate Helps(s: State, e: Step) {
    match e
    case WorkerDoes(_) => true
    case PrepareDoes(_) => s.who.lease.PrepareLease? || (!s.n.wake && (s.prepare.PSignal? || s.prepare.PWake?))
    case CallDoes(t, _) => s.who.lease == CallerLease(t) || (!s.n.wake && Owes(Pc(s, t)))
  }

  lemma LeaseRankFrame(s: State, s': State)
    requires s'.who.lease == s.who.lease && s'.prepare == s.prepare && LeaseAt(s') == LeaseAt(s)
    ensures LeaseRank(s') == LeaseRank(s)
  {}

  /** Under a verdict every step of the worker brings it nearer its end, whatever the clock and the
      closes answer. */
  lemma WorkerLowers(s: State, e: WorkerStep, s': State)
    requires s.n.life.terminal != 0 && WorkerNext(s, e) == Some(s')
    ensures s'.n.life.terminal != 0 && WorkerRank(s'.worker) < WorkerRank(s.worker)
  {}

  lemma WorkerLeavesOthers(s: State, e: WorkerStep, s': State)
    requires WorkerNext(s, e) == Some(s')
    ensures s'.calls == s.calls && s'.who == s.who && s'.prepare == s.prepare
  {}

  /** The preparation, which under a verdict takes no lease any more. */
  lemma PrepareLowers(s: State, e: PrepareStep, s': State)
    requires LeaseOk(s) && s.n.life.terminal != 0 && PrepareNext(s, e) == Some(s')
    ensures s'.n.life == s.n.life && s'.worker == s.worker && (s.n.wake ==> s'.n.wake)
    ensures LeaseRank(s') <= LeaseRank(s) && (s.who.lease.PrepareLease? ==> LeaseRank(s') < LeaseRank(s))
    ensures s.prepare.PSignal? || s.prepare.PWake? ==> s'.n.wake
  {
    if s.who.lease.CallerLease? {
      assert LeaseAt(s') == LeaseAt(s);
    }
  }

  /** Every step of the connector brings it nearer its release, whatever the network answers. */
  lemma ConnectorLowers(s: State, t: nat, pc: ConnectPc, e: CallStep, s': State)
    requires LeaseOk(s) && Pc(s, t) == InStage(Connect, Leasing(pc)) && ConnectorNext(s, t, pc, e) == Some(s')
    ensures s'.n.life == s.n.life && s'.worker == s.worker && s'.n.wake == s.n.wake
    ensures LeaseRank(s') < LeaseRank(s)
  {
    assert s.who.lease == CallerLease(t);
  }

  /** Under a verdict a stage takes no lease. */
  lemma StageStays(s: State, t: nat, g: Stage, pc: StagePc, e: CallStep, s': State)
    requires s.n.life.terminal != 0 && !pc.Leasing? && StageNext(s, t, g, pc, e) == Some(s')
    ensures s'.n.link == s.n.link
  {}

  /** Any other step of a caller leaves the lease holder where it is. */
  lemma CallerStays(s: State, t: nat, e: CallStep, s': State)
    requires LatchOk(s) && OwnersOk(s) && StageOk(s) && s.n.life.terminal != 0
    requires CallNext(s, t, e) == Some(s') && !HoldsLease(Pc(s, t))
    ensures Quiet(s, t, s')
  {
    match Pc(s, t)
    case Idle =>
      if e.CallSocketFD? || e.CallConfirm? {
        ProtectQuiet(s, t, e, s');
      } else {
        StartQuiet(s, t, e, s');
      }
    case Owing(pc) => OweQuiet(s, t, pc, e, s');
    case InStage(g, pc) =>
      StageStays(s, t, g, pc, e, s');
      StageQuiet(s, t, g, pc, e, s');
    case Retiring(pc) => FinishQuiet(s, t, pc, e, s');
    case WaitDone =>
    case Running =>
  }

  lemma IdleKeepsToken(s: State, t: nat, e: CallStep, s': State)
    requires ProtectNext(s, t, e) == Some(s') || StartNext(s, t, e) == Some(s')
    ensures s.n.wake ==> s'.n.wake
  {}

  lemma OweKeepsToken(s: State, t: nat, pc: OwePc, e: CallStep, s': State)
    requires OweNext(s, t, pc, e) == Some(s')
    ensures s.n.wake || Owes(Owing(pc)) ==> s'.n.wake
  {}

  lemma StageKeepsToken(s: State, t: nat, g: Stage, pc: StagePc, e: CallStep, s': State)
    requires StageNext(s, t, g, pc, e) == Some(s')
    ensures s.n.wake || Owes(InStage(g, pc)) ==> s'.n.wake
  {}

  lemma FinishKeepsToken(s: State, t: nat, pc: FinishPc, e: CallStep, s': State)
    requires FinishNext(s, t, pc, e) == Some(s')
    ensures s.n.wake || Owes(Retiring(pc)) ==> s'.n.wake
  {}

  /** Callers never take a token, and one that owes a signal leaves it. */
  lemma CallerKeepsToken(s: State, t: nat, e: CallStep, s': State)
    requires CallNext(s, t, e) == Some(s') && !HoldsLease(Pc(s, t))
    ensures s.n.wake || Owes(Pc(s, t)) ==> s'.n.wake
  {
    match Pc(s, t)
    case Idle => IdleKeepsToken(s, t, e, s');
    case Owing(pc) => OweKeepsToken(s, t, pc, e, s');
    case InStage(g, pc) => StageKeepsToken(s, t, g, pc, e, s');
    case Retiring(pc) => FinishKeepsToken(s, t, pc, e, s');
    case WaitDone =>
    case Running =>
  }

  lemma CallLowers(s: State, t: nat, e: CallStep, s': State)
    requires Inv(s) && s.n.life.terminal != 0 && CallNext(s, t, e) == Some(s')
    ensures s'.n.life.terminal != 0 && Rank(s') <= Rank(s)
    ensures Helps(s, CallDoes(t, e)) ==> Rank(s') < Rank(s)
  {
    if HoldsLease(Pc(s, t)) {
      ConnectorLowers(s, t, Pc(s, t).at.conn, e, s');
    } else {
      CallerStays(s, t, e, s');
      CallerKeepsToken(s, t, e, s');
      QuietKeeps(s, t, s');
      LeaseRankFrame(s, s');
    }
  }

  /** Under a verdict no step of anyone takes the worker further from its end, and every step that
      matters brings it nearer. */
  lemma StepLowers(s: State, e: Step, s': State)
    requires Inv(s) && s.n.life.terminal != 0 && Next(s, e) == Some(s')
    ensures s'.n.life.terminal != 0 && Rank(s') <= Rank(s) && (Helps(s, e) ==> Rank(s') < Rank(s))
  {
    match e
    case WorkerDoes(w) =>
      WorkerLowers(s, w, s');
      WorkerLeavesOthers(s, w, s');
      assert LeaseAt(s') == LeaseAt(s);
      LeaseRankFrame(s, s');
    case PrepareDoes(p) => PrepareLowers(s, p, s');
    case CallDoes(t, c) => CallLowers(s, t, c, s');
  }

  function HelpfulSteps(s: State, run: seq<Step>): nat
    decreases run
  {
    if run == [] || Next(s, run[0]).None? then 0
    else (if Helps(s, run[0]) then 1 else 0) + HelpfulSteps(Next(s, run[0]).value, run[1..])
  }

  /** However the threads interleave and whatever the outside answers, the steps that matter are
      bounded by the distance they cover. */
  lemma {:induction false} HelpIsBounded(s: State, run: seq<Step>, s': State)
    requires Inv(s) && s.n.life.terminal != 0 && Run(s, run) == Some(s')
    ensures HelpfulSteps(s, run) + Rank(s') <= Rank(s) <= 248
    decreases run
  {
    if run != [] {
      var s1 := Next(s, run[0]).value;
      NextKeeps(s, run[0], s1);
      StepLowers(s, run[0], s1);
      HelpIsBounded(s1, run[1..], s');
    }
  }

  /** The signal an owing thread sends next. */
  lemma OwedSignal(s: State) returns (e: Step)
    requires SignalOwed(s) && !s.n.wake
    ensures Helps(s, e) && Next(s, e).Some?
  {
    if s.prepare.PSignal? {
      e := PrepareDoes(PrepSignal);
    } else if s.prepare.PWake? {
      e := PrepareDoes(PrepWake);
    } else {
      var t :| t in s.calls && Owes(s.calls[t]);
      e := CallDoes(t, CallSignal);
    }
  }

  /** The lease holder's next step towards settling the connector. */
  lemma LeaseCanStep(s: State) returns (e: Step)
    requires LeaseOk(s) && s.n.link.active
    ensures Helps(s, e) && Next(s, e).Some?
  {
    if s.who.lease.PrepareLease? {
      e := PrepareDoes(if s.prepare.POpen? then PrepOpen(None) else if s.prepare.PStore? then PrepStore
                       else PrepRelease);
    } else {
      var c := match LeaseAt(s).value
        case Dial(_) => CallDial(false, false)
        case Adopt(_) => CallAdopt(false)
        case Convert(_) => CallConvert(false)
        case Register(_, _) => CallRegister
        case FileClose(_, _) => CallFileClose(false)
        case Commit(_, _, _) => CallCommit(true)
        case Release(_) => CallRelease;
      e := CallDoes(s.who.lease.thread, c);
    }
  }

  /** The worker's own next step, when it is not waiting for anyone. */
  function Forward(pc: WorkerPc): WorkerStep {
    match pc
    case Top => WObserve
    case Arm(_, d) => WArm(if d.Some? then d.value - 1 else 0)
    case Park(_, _) => WWake
    case ExpireCall(_, _) => WExpire(0)
    case ParentCall => WFail
    case WorkerOwes => WSignal
    case AwaitConnector => WAwait
    case Take => WTake
    case CloseFd(_, _) => WCloseFd(false)
    case CloseConn(_, _) => WCloseConn(false)
    case Retire(_) => WRetire
    case CloseRawChan => WCloseRawChan
    case CloseDoneChan => WCloseDoneChan
    case Finished => WObserve
  }

  lemma WorkerCanStep(s: State)
    requires !s.worker.Finished? && (s.worker.Park? ==> s.n.wake)
    requires s.worker.AwaitConnector? ==> s.n.link.doneCloses > 0
    ensures WorkerNext(s, Forward(s.worker)).Some?
  {}

  /** Until the worker has ended, a step that matters can be taken. */
  lemma HelpIsAvailable(s: State) returns (e: Step)
    requires Inv(s) && WakeOk(s) && s.n.life.terminal != 0 && !s.worker.Finished?
    ensures Helps(s, e) && Next(s, e).Some?
  {
    if s.worker.Park? && !s.n.wake {
      e := OwedSignal(s);
    } else if s.worker.AwaitConnector? && s.n.link.doneCloses == 0 {
      e := LeaseCanStep(s);
    } else {
      WorkerCanStep(s);
      e := WorkerDoes(Forward(s.worker));
    }
  }

  /** Such a step leaves a retiring thread that waits at its joins where it is. */
  lemma HelpLeavesJoining(s: State, e: Step, s': State, t: nat)
    requires StageOk(s) && LeaseOk(s) && Helps(s, e) && Next(s, e) == Some(s')
    requires Pc(s, t).Retiring? && Joining(Pc(s, t).fin)
    ensures Pc(s', t) == Pc(s, t)
  {
    match e
    case WorkerDoes(w) => WorkerLeavesOthers(s, w, s');
    case PrepareDoes(p) => assert s'.calls == s.calls;
    case CallDoes(u, c) => CallAnnounces(s, u, c, s');
  }

  /** From any state with a verdict some run of these steps ends the worker. */
  lemma WorkerCanFinish(s: State) returns (run: seq<Step>, s': State)
    requires Inv(s) && WakeOk(s) && s.n.life.terminal != 0
    ensures Run(s, run) == Some(s') && s'.worker.Finished?
    ensures forall t | Pc(s, t).Retiring? && Joining(Pc(s, t).fin) :: Pc(s', t) == Pc(s, t)
    decreases Rank(s)
  {
    if s.worker.Finished? {
      run, s' := [], s;
    } else {
      var e := HelpIsAvailable(s);
      var s1 := Next(s, e).value;
      StepLowers(s, e, s1);
      NextKeeps(s, e, s1);
      NextKeepsWake(s, e, s1);
      forall t | Pc(s, t).Retiring? && Joining(Pc(s, t).fin)
        ensures Pc(s1, t) == Pc(s, t)
      {
        HelpLeavesJoining(s, e, s1, t);
      }
      var rest;
      rest, s' := WorkerCanFinish(s1);
      run := [e] + rest;
      assert run[0] == e && run[1..] == rest;
    }
  }
}

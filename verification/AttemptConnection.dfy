/**
 A transport that says it is connected is: from the phase after the connect stage on, and
 until a verdict, the one connection dialled for the protected socket is registered and open.
 */
module AttemptConnection {
  import opened Options
  import opened AttemptState
  import opened AttemptProtocol
  import opened AttemptInvariants
  import opened AttemptWakeup
  import opened AttemptTheorems
  import opened AttemptVerdicts

  /** The connection is registered, its descriptor disowned, and no close has failed. */
  predicate Linked(n: Shared) { n.link.raw && n.link.fd == -1 && !n.link.closeError }

  /** The connect stage after its connector reported success. */
  predicate Succeeding(pc: CallPc) {
    && pc.InStage? && pc.stage == Connect
    && (pc.at == ConnSignal(true) || pc.at.ConnPreface? || (pc.at.Leaving? && !pc.at.failed))
  }

  predicate ConnectedOk(s: State) {
    && (s.n.link.closeError ==> s.n.link.settled || (LeaseAt(s).Some? && LeaseAt(s).value.Release?))
    && (s.n.life.terminal == 0 ==>
          && (s.n.life.phase >= CONNECTED ==> s.n.link.settled && Linked(s.n))
          && (s.who.stage.Some? && Succeeding(Pc(s, s.who.stage.value)) ==> s.n.link.settled && Linked(s.n))
          && (LeaseAt(s) == Some(Release(true)) ==> Linked(s.n)))
  }

  lemma WorkerKeepsConnected(s: State, e: WorkerStep, s': State)
    requires ConnectedOk(s) && WorkerOk(s) && LatchOk(s) && WorkerNext(s, e) == Some(s')
    ensures ConnectedOk(s')
  {
    WorkerLeavesOthers(s, e, s');
    WorkerAdvances(s, e, s');
    assert LeaseAt(s') == LeaseAt(s);
  }

  lemma PrepareKeepsConnected(s: State, e: PrepareStep, s': State)
    requires ConnectedOk(s) && LeaseOk(s) && PrepareNext(s, e) == Some(s')
    ensures ConnectedOk(s')
  {
    assert s.who.lease.CallerLease? ==> LeaseAt(s') == LeaseAt(s);
    assert !s.who.lease.CallerLease? ==> LeaseAt(s').None?;
  }

  lemma ConnectorKeepsConnected(s: State, t: nat, pc: ConnectPc, e: CallStep, s': State)
    requires ConnectedOk(s) && LeaseOk(s) && OwnersOk(s) && ConnOk(s) && StageOk(s)
    requires Pc(s, t) == InStage(Connect, Leasing(pc)) && ConnectorNext(s, t, pc, e) == Some(s')
    ensures ConnectedOk(s')
  {
    assert s.who.lease == CallerLease(t) && s.who.stage == Some(t);
    assert StagePointOk(s.n, Connect, Leasing(pc));
  }

  lemma StageKeepsConnected(s: State, t: nat, g: Stage, pc: StagePc, e: CallStep, s': State)
    requires ConnectedOk(s) && LeaseOk(s) && OwnersOk(s) && StageOk(s) && LatchOk(s)
    requires Pc(s, t) == InStage(g, pc) && !pc.Leasing? && StageNext(s, t, g, pc, e) == Some(s')
    ensures ConnectedOk(s')
  {
    assert s.who.stage == Some(t) && StagePointOk(s.n, g, pc);
    assert !s.who.lease.CallerLease?;
    if pc.Leaving? {
      LeaveConnected(s.n, pc.target, e.status);
    }
  }

  /** Leaving commits only a success with no verdict before it, and leaves the link alone. */
  lemma LeaveConnected(n: Shared, target: nat, status: int)
    ensures var n' := Leave(n, target, status).0;
            && n'.link == n.link
            && (n'.life.terminal == 0 ==> n.life.terminal == 0 && n'.life.phase == target && status == 0)
  {}

  /** A caller outside the stages reaches no phase past the confirmation and is not on its way there. */
  predicate Outside(s: State, t: nat, s': State) {
    && (s'.n.life.phase >= CONNECTED ==> s.n.life.phase >= CONNECTED)
    && !Succeeding(Pc(s', t)) && (s'.who.stage == s.who.stage || s'.who.stage == Some(t))
  }

  lemma SocketPhase(n: Shared, now: int, later: int)
    ensures SocketFD(n, now, later).0.life.phase in {n.life.phase, PUBLISHED}
  {}

  lemma ConfirmPhase(n: Shared, fd: int, now: int, later: int)
    ensures Confirm(n, fd, now, later).0.life.phase in {n.life.phase, CONFIRMED}
  {}

  lemma ProtectIsOutside(s: State, t: nat, e: CallStep, s': State)
    requires ProtectNext(s, t, e) == Some(s')
    ensures Outside(s, t, s')
  {
    assert s'.who == s.who && !Pc(s', t).InStage?;
    if e.CallSocketFD? {
      SocketPhase(s.n, e.now, e.later);
      assert s'.n == SocketFD(s.n, e.now, e.later).0;
    } else {
      ConfirmPhase(s.n, e.fd, e.now, e.later);
      assert s'.n == Confirm(s.n, e.fd, e.now, e.later).0 || s'.n == s.n;
    }
  }

  lemma StartIsOutside(s: State, t: nat, e: CallStep, s': State)
    requires StartNext(s, t, e) == Some(s')
    ensures Outside(s, t, s')
  {}

  lemma OweIsOutside(s: State, t: nat, pc: OwePc, e: CallStep, s': State)
    requires OweNext(s, t, pc, e) == Some(s')
    ensures Outside(s, t, s')
  {}

  lemma FinishIsOutside(s: State, t: nat, pc: FinishPc, e: CallStep, s': State)
    requires FinishNext(s, t, pc, e) == Some(s')
    ensures Outside(s, t, s')
  {}

  lemma CallerIsOutside(s: State, t: nat, e: CallStep, s': State)
    requires CallNext(s, t, e) == Some(s') && !Pc(s, t).InStage?
    ensures Outside(s, t, s')
  {
    match Pc(s, t)
    case Idle =>
      if e.CallSocketFD? || e.CallConfirm? {
        ProtectIsOutside(s, t, e, s');
      } else {
        StartIsOutside(s, t, e, s');
      }
    case Owing(pc) => OweIsOutside(s, t, pc, e, s');
    case Retiring(pc) => FinishIsOutside(s, t, pc, e, s');
    case WaitDone =>
    case Running =>
  }

  lemma OutsideKeepsConnected(s: State, t: nat, s': State)
    requires ConnectedOk(s) && OwnersOk(s) && Quiet(s, t, s') && Outside(s, t, s') && !Pc(s, t).InStage?
    ensures ConnectedOk(s')
  {
    assert LeaseAt(s') == LeaseAt(s);
  }

  lemma CallKeepsConnected(s: State, t: nat, e: CallStep, s': State)
    requires Inv(s) && ConnectedOk(s) && CallNext(s, t, e) == Some(s')
    ensures ConnectedOk(s')
  {
    if !Pc(s, t).InStage? {
      CallerQuiet(s, t, e, s');
      CallerIsOutside(s, t, e, s');
      OutsideKeepsConnected(s, t, s');
    } else if Pc(s, t).at.Leasing? {
      ConnectorKeepsConnected(s, t, Pc(s, t).at.conn, e, s');
    } else {
      StageKeepsConnected(s, t, Pc(s, t).stage, Pc(s, t).at, e, s');
    }
  }

  lemma {:induction false} RunKeepsConnected(s: State, run: seq<Step>, s': State)
    requires Inv(s) && WakeOk(s) && ConnectedOk(s) && Run(s, run) == Some(s')
    ensures ConnectedOk(s')
    decreases run
  {
    if run != [] {
      var s1 := Next(s, run[0]).value;
      NextKeeps(s, run[0], s1);
      NextKeepsWake(s, run[0], s1);
      match run[0] {
        case WorkerDoes(w) => WorkerKeepsConnected(s, w, s1);
        case PrepareDoes(p) => PrepareKeepsConnected(s, p, s1);
        case CallDoes(t, c) => CallKeepsConnected(s, t, c, s1);
      }
      RunKeepsConnected(s1, run[1..], s');
    }
  }

  /** In every reachable state past the connect stage and without a verdict the connection is
      registered and open, the socket's own descriptor has been closed, and no close has failed. */
  lemma ConnectedIsLive(s: State)
    requires Reachable(s) && s.n.life.phase >= 4 && s.n.life.terminal == 0
    ensures s.n.link.raw && s.os.connOpens == 1 && s.os.connCloses == 0
    ensures s.n.link.fd == -1 && s.os.fdCloses == s.os.sockets && !s.n.link.closeError
    ensures s.n.link.settled && !s.n.link.active
  {
    var authority: int, run: seq<Step> :| Run(Init(authority), run) == Some(s);
    InitKeeps(authority);
    RunKeepsConnected(Init(authority), run, s);
    ReachableInv(s);
  }
}

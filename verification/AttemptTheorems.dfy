/**
 What the attempt transport guarantees over every run: whatever the interleaving of
 preparation, connector, stages, failures, expiry, close worker, runner and finisher.
 */
module AttemptTheorems {
  import opened Options
  import opened AttemptState
  import opened AttemptProtocol
  import opened AttemptInvariants
  import opened AttemptWakeup

  lemma {:induction false} RunKeeps(s: State, run: seq<Step>, s': State)
    requires Inv(s) && WakeOk(s) && Run(s, run) == Some(s')
    ensures Inv(s') && WakeOk(s')
    decreases run
  {
    if run != [] {
      var s1 := Next(s, run[0]).value;
      NextKeeps(s, run[0], s1);
      NextKeepsWake(s, run[0], s1);
      RunKeeps(s1, run[1..], s');
    }
  }

  ghost predicate Reachable(s: State) {
    exists authority: int, run: seq<Step> :: Run(Init(authority), run) == Some(s)
  }

  lemma ReachableInv(s: State)
    requires Reachable(s)
    ensures Inv(s) && WakeOk(s)
  {
    var authority: int, run: seq<Step> :| Run(Init(authority), run) == Some(s);
    InitKeeps(authority);
    RunKeeps(Init(authority), run, s);
  }

  lemma {:induction false} RunSnoc(s: State, run: seq<Step>, s1: State, e: Step)
    requires Run(s, run) == Some(s1)
    ensures Run(s, run + [e]) == Next(s1, e)
    decreases run
  {
    if run == [] {
      assert run + [e] == [e];
      assert [e][1..] == [];
    } else {
      RunSnoc(Next(s, run[0]).value, run[1..], s1, e);
      assert (run + [e])[1..] == run[1..] + [e];
    }
  }

  lemma {:induction false} RunJoin(s: State, run: seq<Step>, s1: State, more: seq<Step>)
    requires Run(s, run) == Some(s1)
    ensures Run(s, run + more) == Run(s1, more)
    decreases run
  {
    if run == [] {
      assert run + more == more;
    } else {
      var whole, first := run + more, Next(s, run[0]);
      assert whole[0] == run[0] && whole[1..] == run[1..] + more;
      RunJoin(first.value, run[1..], s1, more);
      assert Run(s, whole) == Run(first.value, whole[1..]);
    }
  }

  // ----- descriptor and connection -----

  /** The socket and the adopted connection are closed at most once at every moment, and exactly
      once by the time the worker has ended; the worker never takes either while the lease is held. */
  lemma ClosedExactlyOnce(s: State)
    requires Reachable(s)
    ensures |s.os.sockets| <= 1 && s.os.connOpens <= 1
    ensures s.os.fdCloses == [] || s.os.fdCloses == s.os.sockets
    ensures s.os.connCloses <= s.os.connOpens
    ensures WorkerPastConnector(s.worker) ==> !s.n.link.active
    ensures s.worker.Finished? ==> s.os.fdCloses == s.os.sockets && s.os.connCloses == s.os.connOpens
    ensures s.worker.Finished? ==> s.n.link.fd == -1 && !s.n.link.raw && s.who.lease == NoLease
  {
    ReachableInv(s);
  }

  /** connectorDone, rawClosed, closerDone and done are each closed at most once, and a worker
      that has left its loop waits only for a connector that is settled or bound to settle. */
  lemma ChannelsCloseOnce(s: State)
    requires Reachable(s)
    ensures s.n.link.doneCloses <= 1 && s.n.ends.raw <= 1 && s.n.ends.closer <= 1 && s.n.ends.done <= 1
    ensures s.n.link.doneCloses == 1 <==> s.n.link.settled
    ensures s.worker.AwaitConnector? && !s.n.link.settled ==>
              s.n.link.active && (PrepareHoldsLease(s.prepare) || LeaseAt(s).Some?)
  {
    ReachableInv(s);
  }

  lemma NoLostWakeup(s: State)
    requires Reachable(s) && s.worker.Park?
    requires s.n.life.terminal != 0 || s.n.clock.serial != s.worker.serial || s.n.clock.deadline != s.worker.deadline
    ensures s.n.wake || SignalOwed(s)
  {
    ReachableInv(s);
  }

  /** Under a verdict, in every run and for every answer of the outside: the steps that matter are at
      most as many as the distance to the end; once they are that many the worker has ended; and
      until it has, one of them can be taken. */
  lemma VerdictIsCarriedThrough(s: State, run: seq<Step>, s': State)
    requires Reachable(s) && s.n.life.terminal != 0 && Run(s, run) == Some(s')
    ensures HelpfulSteps(s, run) <= Rank(s) <= 248
    ensures HelpfulSteps(s, run) == Rank(s) ==> s'.worker.Finished?
    ensures !s'.worker.Finished? ==> exists e :: Helps(s', e) && Next(s', e).Some?
  {
    ReachableInv(s);
    HelpIsBounded(s, run, s');
    RunKeeps(s, run, s');
    LatchedFrom(s, run, s');
    if !s'.worker.Finished? {
      var e := HelpIsAvailable(s');
    }
  }

  /** No reachable state with a verdict leaves the worker stuck. */
  lemma VerdictReachesTheEnd(s: State) returns (run: seq<Step>, s': State)
    requires Reachable(s) && s.n.life.terminal != 0
    ensures Run(s, run) == Some(s') && s'.worker.Finished?
    ensures s'.os.fdCloses == s'.os.sockets && s'.os.connCloses == s'.os.connOpens
  {
    ReachableInv(s);
    run, s' := WorkerCanFinish(s);
    RunKeeps(s, run, s');
  }

  // ----- phase and hand-off -----

  /** The protection history is a prefix of publish, confirm, lease, dial, for the one socket
      there is, and no verdict stood before the lease was taken. */
  lemma HandOffInOrder(s: State)
    requires Reachable(s)
    ensures |s.log| <= 4
    ensures forall k | 0 <= k < |s.log| ::
              s.log[k].kind == Turn(k) && s.os.sockets == [s.log[k].fd] && (k < 3 ==> s.log[k].terminal == 0)
    ensures forall j, k | 0 <= j < k < |s.log| :: s.log[j].fd == s.log[k].fd && s.log[j].kind != s.log[k].kind
  {
    ReachableInv(s);
    forall j, k | 0 <= j < k < |s.log|
      ensures s.log[j].fd == s.log[k].fd
    {
      assert [s.log[j].fd] == [s.log[k].fd];
      assert [s.log[j].fd][0] == [s.log[k].fd][0];
    }
  }

  /** What one step may do to phase and verdict. */
  predicate Advances(n: Shared, n': Shared) {
    && (n'.life.phase == n.life.phase
        || (n'.life.phase == n.life.phase + 1 && n.life.terminal == 0 == n'.life.terminal))
    && (n.life.terminal != 0 ==> n'.life.terminal != 0)
    && (n.life.terminal != 0 && n.life.terminal != 9 ==> n'.life.terminal == n.life.terminal)
    && (n.life.finishing ==> n'.life.finishing)
    && (n.life.phase == ATTACHED && n.life.terminal == 0 ==>
          n'.life.terminal == 0 || n'.life.terminal == 7 || n'.life.terminal == 9 ||
          n'.life.terminal == 3 || n'.life.terminal == 16)
  }

  lemma WorkerAdvances(s: State, e: WorkerStep, s': State)
    requires LatchOk(s) && WorkerNext(s, e) == Some(s')
    ensures Advances(s.n, s'.n)
    ensures s.n.life.terminal != 0 ==> s'.n.life.terminal == s.n.life.terminal
  {}

  lemma PrepareAdvances(s: State, e: PrepareStep, s': State)
    requires PrepareNext(s, e) == Some(s')
    ensures Advances(s.n, s'.n) && s'.n.life == s.n.life
  {}

  /** Only the section of leaveV1 may replace a verdict, and only the generic status 9. */
  lemma CallAdvances(s: State, t: nat, e: CallStep, s': State)
    requires LatchOk(s) && OwnersOk(s) && StageOk(s) && CallNext(s, t, e) == Some(s')
    ensures Advances(s.n, s'.n)
    ensures s.n.life.terminal != 0 && s'.n.life.terminal != s.n.life.terminal ==>
              s.n.life.terminal == 9 && e.CallLeave? && s'.n.life.terminal != 0
  {
    match Pc(s, t)
    case Idle =>
      if e.CallSocketFD? || e.CallConfirm? {
        ProtectAdvances(s, t, e, s');
      } else {
        StartAdvances(s, t, e, s');
      }
    case InStage(g, pc) =>
      if pc.Leasing? {
        ConnectorAdvances(s, t, pc.conn, e, s');
      } else {
        StageAdvances(s, t, g, pc, e, s');
      }
    case Retiring(pc) => FinishAdvances(s, t, pc, e, s');
    case Owing(pc) => OweAdvances(s, t, pc, e, s');
    case _ =>
  }

  lemma SocketAdvances(n: Shared, now: int, later: int)
    requires n.clock.deadline.None? || n.life.phase != ATTACHED
    ensures var n' := SocketFD(n, now, later).0;
            Advances(n, n') && (n.life.terminal != 0 ==> n'.life.terminal == n.life.terminal)
  {}

  lemma ConfirmAdvances(n: Shared, fd: int, now: int, later: int)
    requires n.clock.deadline.None? || n.life.phase != ATTACHED
    ensures var n' := Confirm(n, fd, now, later).0;
            Advances(n, n') && (n.life.terminal != 0 ==> n'.life.terminal == n.life.terminal)
  {}

  lemma ProtectAdvances(s: State, t: nat, e: CallStep, s': State)
    requires LatchOk(s) && ProtectNext(s, t, e) == Some(s')
    ensures Advances(s.n, s'.n)
    ensures s.n.life.terminal != 0 ==> s'.n.life.terminal == s.n.life.terminal
  {
    if e.CallSocketFD? {
      SocketAdvances(s.n, e.now, e.later);
      assert s'.n == SocketFD(s.n, e.now, e.later).0;
    } else {
      ConfirmAdvances(s.n, e.fd, e.now, e.later);
      assert s'.n == Confirm(s.n, e.fd, e.now, e.later).0 || s'.n == s.n;
    }
  }

  lemma StartAdvances(s: State, t: nat, e: CallStep, s': State)
    requires LatchOk(s) && StartNext(s, t, e) == Some(s')
    ensures Advances(s.n, s'.n)
    ensures s.n.life.terminal != 0 ==> s'.n.life.terminal == s.n.life.terminal
  {}

  lemma OweAdvances(s: State, t: nat, pc: OwePc, e: CallStep, s': State)
    requires LatchOk(s) && Pc(s, t) == Owing(pc) && OweNext(s, t, pc, e) == Some(s')
    ensures Advances(s.n, s'.n)
    ensures s.n.life.terminal != 0 ==> s'.n.life.terminal == s.n.life.terminal
  {}

  lemma FinishAdvances(s: State, t: nat, pc: FinishPc, e: CallStep, s': State)
    requires FinishNext(s, t, pc, e) == Some(s')
    ensures Advances(s.n, s'.n)
    ensures s.n.life.terminal != 0 ==> s'.n.life.terminal == s.n.life.terminal
  {}

  lemma StageAdvances(s: State, t: nat, g: Stage, pc: StagePc, e: CallStep, s': State)
    requires LatchOk(s) && OwnersOk(s) && StageOk(s)
    requires Pc(s, t) == InStage(g, pc) && StageNext(s, t, g, pc, e) == Some(s')
    ensures Advances(s.n, s'.n)
    ensures s.n.life.terminal != 0 && s'.n.life.terminal != s.n.life.terminal ==>
              s.n.life.terminal == 9 && e.CallLeave? && s'.n.life.terminal != 0
  {
    if !pc.Leaving? {
      assert s'.n.life == s.n.life;
    }
  }

  lemma ConnectorAdvances(s: State, t: nat, pc: ConnectPc, e: CallStep, s': State)
    requires ConnectorNext(s, t, pc, e) == Some(s')
    ensures s'.n.life == s.n.life && s'.n.kids == s.n.kids && Advances(s.n, s'.n)
  {}

  lemma NextAdvances(s: State, e: Step, s': State)
    requires Inv(s) && Next(s, e) == Some(s')
    ensures Advances(s.n, s'.n)
  {
    match e
    case WorkerDoes(w) => WorkerAdvances(s, w, s');
    case PrepareDoes(p) => PrepareAdvances(s, p, s');
    case CallDoes(t, c) => CallAdvances(s, t, c, s');
  }

  /** Over any continuation: the phase never falls, a verdict never leaves and only 9 is ever
      replaced, retirement is never undone and no stage or run starts after it. */
  lemma {:induction false} LatchedForever(s: State, run: seq<Step>, s': State)
    requires Reachable(s) && Run(s, run) == Some(s')
    ensures s.n.life.phase <= s'.n.life.phase
    ensures s.n.life.terminal != 0 ==> s'.n.life.terminal != 0
    ensures s.n.life.terminal != 0 && s.n.life.terminal != 9 ==> s'.n.life.terminal == s.n.life.terminal
    ensures s'.n.life.cancelled <==> s'.n.life.terminal != 0
    ensures s.n.life.finishing ==> s'.n.life.finishing && !s'.n.life.busy && !s'.n.life.runActive
  {
    ReachableInv(s);
    LatchedFrom(s, run, s');
  }

  lemma {:induction false} LatchedFrom(s: State, run: seq<Step>, s': State)
    requires Inv(s) && WakeOk(s) && Run(s, run) == Some(s')
    ensures s.n.life.phase <= s'.n.life.phase
    ensures s.n.life.terminal != 0 ==> s'.n.life.terminal != 0
    ensures s.n.life.terminal != 0 && s.n.life.terminal != 9 ==> s'.n.life.terminal == s.n.life.terminal
    ensures s'.n.life.cancelled <==> s'.n.life.terminal != 0
    ensures s.n.life.finishing ==> s'.n.life.finishing && !s'.n.life.busy && !s'.n.life.runActive
    decreases run
  {
    if run != [] {
      var s1 := Next(s, run[0]).value;
      NextKeeps(s, run[0], s1);
      NextKeepsWake(s, run[0], s1);
      NextAdvances(s, run[0], s1);
      LatchedFrom(s1, run[1..], s');
    }
  }

  /** One step moves the phase by at most one, and then with no verdict before or after. */
  lemma PhaseByOne(s: State, e: Step, s': State)
    requires Reachable(s) && Next(s, e) == Some(s')
    ensures s'.n.life.phase == s.n.life.phase ||
            (s'.n.life.phase == s.n.life.phase + 1 && s.n.life.terminal == 0 && s'.n.life.terminal == 0)
  {
    ReachableInv(s);
    NextAdvances(s, e, s');
  }

  /** A stage that reports success has moved the phase to its own exit, with no verdict standing;
      one that reports failure has left a verdict and moved nothing. */
  lemma StageOutcome(s: State, t: nat, status: int, s': State)
    requires Reachable(s) && Pc(s, t).InStage? && Pc(s, t).at.Leaving?
    requires Next(s, CallDoes(t, CallLeave(status))) == Some(s')
    ensures var reported := Leave(s.n, Pc(s, t).at.target, status).1;
            if reported == 0
            then s.n.life.terminal == 0 == s'.n.life.terminal && s'.n.life.phase == ExitPhase(Pc(s, t).stage)
            else s'.n.life.terminal != 0 && s'.n.life.phase == s.n.life.phase
  {
    ReachableInv(s);
  }

  // ----- deadlines -----

  /** An expiry decision taken on an old serial or deadline changes no shared field. */
  lemma StaleExpiryIsNothing(s: State, now: int, s': State)
    requires s.worker.ExpireCall? && Next(s, WorkerDoes(WExpire(now))) == Some(s')
    requires s.n.clock.serial != s.worker.serial || s.n.clock.deadline != s.worker.deadline
    ensures s'.n == s.n && s'.worker == Top
  {}

  /** Once attached there is no deadline in any continuation, so no expiry: a verdict can only be
      cancellation 7, close 9, misuse 3 or a protection mismatch 16. */
  lemma {:induction false} AttachedNeverExpires(s: State, run: seq<Step>, s': State)
    requires Reachable(s) && s.n.life.phase == ATTACHED && s.n.life.terminal == 0 && Run(s, run) == Some(s')
    ensures s'.n.clock.deadline == None
    ensures s'.n.life.terminal in {0, 3, 7, 9, 16}
  {
    ReachableInv(s);
    AttachedFrom(s, run, s');
  }

  lemma {:induction false} AttachedFrom(s: State, run: seq<Step>, s': State)
    requires Inv(s) && WakeOk(s) && s.n.life.phase == ATTACHED && s.n.life.terminal in {0, 3, 7, 9, 16}
    requires Run(s, run) == Some(s')
    ensures s'.n.clock.deadline == None && s'.n.life.terminal in {0, 3, 7, 9, 16}
    decreases run
  {
    if run != [] {
      var s1 := Next(s, run[0]).value;
      NextKeeps(s, run[0], s1);
      NextKeepsWake(s, run[0], s1);
      NextAdvances(s, run[0], s1);
      if s.n.life.terminal != 0 {
        NineStands(s, run[0], s1);
      }
      AttachedFrom(s1, run[1..], s');
    }
  }

  /** With no stage left to run, even the generic status is final. */
  lemma NineStands(s: State, e: Step, s': State)
    requires Inv(s) && s.n.life.phase == ATTACHED && s.n.life.terminal != 0 && Next(s, e) == Some(s')
    ensures s'.n.life.terminal == s.n.life.terminal
  {
    match e
    case WorkerDoes(w) => WorkerAdvances(s, w, s');
    case PrepareDoes(p) => PrepareAdvances(s, p, s');
    case CallDoes(t, c) => CallAdvances(s, t, c, s');
  }

  // ----- retirement -----

  /** Done closes only in a quiescent state, and the recorded status is the closer's. */
  lemma DoneIsQuiescent(s: State)
    requires Reachable(s) && s.n.ends.done == 1
    ensures s.n.life.finishing && !s.n.life.busy && !s.n.life.runActive
    ensures s.worker.Finished? && s.n.link.settled && s.who.lease == NoLease
    ensures s.n.kids == Children(false, false, false, false)
    ensures s.os.fdCloses == s.os.sockets && s.os.connCloses == s.os.connOpens
    ensures s.os.owned == Some(0) && s.n.life.finishStatus == if s.n.link.closeError then 9 else 0
    ensures forall t | t in s.calls :: !s.calls[t].InStage? && !s.calls[t].Retiring? && !s.calls[t].Running?
  {
    ReachableInv(s);
  }

  /** Program points that use the carrier, result, service or packet fields outside the lock. */
  predicate Touches(pc: CallPc) {
    || (pc.InStage? && ((pc.at.Body? && pc.stage != Connect) ||
                        pc.at.AttachPump? || pc.at.AttachResult? || pc.at.AttachBind?))
    || (pc.Retiring? && (pc.fin.FinService? || pc.fin.FinPacket? || pc.fin.FinCarrier? || pc.fin.FinResult?))
  }

  /** At most one thread uses the children outside the lock, and none while a reader's guard holds
      or a run is under way. */
  lemma ChildrenAreExclusive(s: State, t: nat, u: nat)
    requires Reachable(s)
    ensures Touches(Pc(s, t)) && Touches(Pc(s, u)) ==> t == u
    ensures Attached(s.n) || Pc(s, u).Running? ==> !Touches(Pc(s, t))
  {
    ReachableInv(s);
  }

  /** The children change only at the hands of the one thread that touches them. */
  lemma ChildrenChangeByTouch(s: State, e: Step, s': State)
    requires Reachable(s) && Next(s, e) == Some(s') && s'.n.kids != s.n.kids
    ensures e.CallDoes? && Touches(Pc(s, e.thread))
  {
    ReachableInv(s);
    match e
    case WorkerDoes(w) => WorkerKeepsChildren(s, w, s');
    case PrepareDoes(p) => PrepareKeepsChildren(s, p, s');
    case CallDoes(t, c) => CallChangesByTouch(s, t, c, s');
  }

  lemma WorkerKeepsChildren(s: State, e: WorkerStep, s': State)
    requires WorkerNext(s, e) == Some(s')
    ensures s'.n.kids == s.n.kids
  {}

  lemma PrepareKeepsChildren(s: State, e: PrepareStep, s': State)
    requires PrepareNext(s, e) == Some(s')
    ensures s'.n.kids == s.n.kids
  {}

  lemma IdleKeepsChildren(s: State, t: nat, e: CallStep, s': State)
    requires ProtectNext(s, t, e) == Some(s') || StartNext(s, t, e) == Some(s')
    ensures s'.n.kids == s.n.kids
  {}

  lemma StageChangesByTouch(s: State, t: nat, g: Stage, pc: StagePc, e: CallStep, s': State)
    requires StageNext(s, t, g, pc, e) == Some(s') && s'.n.kids != s.n.kids
    ensures Touches(InStage(g, pc))
  {}

  lemma FinishChangesByTouch(s: State, t: nat, pc: FinishPc, e: CallStep, s': State)
    requires FinishNext(s, t, pc, e) == Some(s') && s'.n.kids != s.n.kids
    ensures Touches(Retiring(pc))
  {}

  lemma CallChangesByTouch(s: State, t: nat, e: CallStep, s': State)
    requires StageOk(s) && CallNext(s, t, e) == Some(s') && s'.n.kids != s.n.kids
    ensures Touches(Pc(s, t))
  {
    match Pc(s, t)
    case Idle => IdleKeepsChildren(s, t, e, s');
    case Owing(pc) =>
    case InStage(g, pc) =>
      if pc.Leasing? {
        ConnectorAdvances(s, t, pc.conn, e, s');
      } else {
        StageChangesByTouch(s, t, g, pc, e, s');
      }
    case Retiring(pc) => FinishChangesByTouch(s, t, pc, e, s');
    case WaitDone =>
    case Running =>
  }
}

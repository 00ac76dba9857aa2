/**
 When retirement can complete. FinishV1 gives up for good if FinishOwnedV1 answers nonzero:
 it stays claimed, nobody is at it any more, and `done` never closes. In every other
 reachable state some continuation closes it.
 */
module AttemptRetirement {
  import opened Options
  import opened AttemptState
  import opened AttemptProtocol
  import opened AttemptInvariants
  import opened AttemptWakeup
  import opened AttemptTheorems

  /** FinishOwnedV1 has answered nonzero. */
  predicate OwnedRefused(s: State) { s.os.owned.Some? && s.os.owned.value != 0 }

  /** Retirement is claimed and not done, and no thread is at it. */
  predicate Abandoned(s: State) {
    s.n.life.finishing && s.n.ends.done == 0 && forall t | t in s.calls :: !s.calls[t].Retiring?
  }

  /** A claim is either abandoned, by a refusal, or still pursued by the thread that made it. */
  predicate RetirementOk(s: State) {
    && (OwnedRefused(s) ==> Abandoned(s))
    && (s.n.life.finishing && s.n.ends.done == 0 && !OwnedRefused(s) ==>
          s.who.finisher.Some? && Pc(s, s.who.finisher.value).Retiring?)
  }

  // ----- every step keeps it -----

  /** A step that has nothing to do with retirement. */
  predicate Aside(s: State, s': State) {
    && s'.n.life.finishing == s.n.life.finishing && s'.n.ends.done == s.n.ends.done
    && s'.os.owned == s.os.owned && s'.who.finisher == s.who.finisher
  }

  predicate AsideBy(s: State, t: nat, s': State) {
    && Aside(s, s') && t in s'.calls && s'.calls == s.calls[t := s'.calls[t]]
    && !Pc(s, t).Retiring? && !s'.calls[t].Retiring?
    && (Pc(s, t).WaitDone? && s.n.ends.done == 0 ==> s'.calls[t].WaitDone?)
  }

  lemma WorkerAside(s: State, e: WorkerStep, s': State)
    requires WorkerNext(s, e) == Some(s')
    ensures Aside(s, s') && s'.calls == s.calls
  {}

  lemma PrepareAside(s: State, e: PrepareStep, s': State)
    requires PrepareNext(s, e) == Some(s')
    ensures Aside(s, s') && s'.calls == s.calls
  {}

  lemma ProtectAside(s: State, t: nat, e: CallStep, s': State)
    requires Pc(s, t).Idle? && ProtectNext(s, t, e) == Some(s')
    ensures AsideBy(s, t, s')
  {}

  lemma StartAside(s: State, t: nat, e: CallStep, s': State)
    requires Pc(s, t).Idle? && StartNext(s, t, e) == Some(s')
    requires e.CallFinish? ==> s.n.life.finishing || FinishBusy(s.n)
    ensures AsideBy(s, t, s')
  {}

  lemma OweAside(s: State, t: nat, pc: OwePc, e: CallStep, s': State)
    requires Pc(s, t) == Owing(pc) && OweNext(s, t, pc, e) == Some(s')
    ensures AsideBy(s, t, s')
  {}

  lemma ConnectorAside(s: State, t: nat, pc: ConnectPc, e: CallStep, s': State)
    requires Pc(s, t) == InStage(Connect, Leasing(pc)) && ConnectorNext(s, t, pc, e) == Some(s')
    ensures AsideBy(s, t, s')
  {}

  lemma StageKeepsClaim(s: State, t: nat, g: Stage, pc: StagePc, e: CallStep, s': State)
    requires StageNext(s, t, g, pc, e) == Some(s')
    ensures s'.n.life.finishing == s.n.life.finishing && s'.os == s.os && s'.who.finisher == s.who.finisher
  {}

  lemma StageAside(s: State, t: nat, g: Stage, pc: StagePc, e: CallStep, s': State)
    requires Pc(s, t) == InStage(g, pc) && StageNext(s, t, g, pc, e) == Some(s')
    ensures AsideBy(s, t, s')
  {
    StageLeavesRetirement(s, t, g, pc, e, s');
    StageKeepsClaim(s, t, g, pc, e, s');
  }

  /** Every caller step but the finisher's own and the claim. */
  lemma CallAside(s: State, t: nat, e: CallStep, s': State)
    requires StageOk(s) && CallNext(s, t, e) == Some(s') && !Pc(s, t).Retiring?
    requires !(Pc(s, t).Idle? && e.CallFinish? && !s.n.life.finishing && !FinishBusy(s.n))
    ensures AsideBy(s, t, s')
  {
    match Pc(s, t)
    case Idle =>
      if e.CallSocketFD? || e.CallConfirm? {
        ProtectAside(s, t, e, s');
      } else {
        StartAside(s, t, e, s');
      }
    case Owing(pc) => OweAside(s, t, pc, e, s');
    case InStage(g, pc) =>
      if pc.Leasing? {
        ConnectorAside(s, t, pc.conn, e, s');
      } else {
        StageAside(s, t, g, pc, e, s');
      }
    case WaitDone =>
    case Running =>
  }

  lemma AsideKeeps(s: State, t: nat, s': State)
    requires RetirementOk(s) && AsideBy(s, t, s')
    ensures RetirementOk(s')
  {}

  lemma ClaimKeeps(s: State, t: nat, s': State)
    requires OwnersOk(s) && RetireOk(s) && RetirementOk(s) && Pc(s, t).Idle? && !s.n.life.finishing && !FinishBusy(s.n)
    requires StartNext(s, t, CallFinish) == Some(s')
    ensures RetirementOk(s')
  {}

  lemma FinisherKeeps(s: State, t: nat, pc: FinishPc, e: CallStep, s': State)
    requires OwnersOk(s) && RetireOk(s) && RetirementOk(s)
    requires Pc(s, t) == Retiring(pc) && FinishNext(s, t, pc, e) == Some(s')
    ensures RetirementOk(s')
  {
    assert s.who.finisher == Some(t) && s.n.ends.done == 0 && !OwnedRefused(s);
    assert forall u | u in s.calls && u != t :: !s.calls[u].Retiring?;
  }

  lemma NextKeepsRetirement(s: State, e: Step, s': State)
    requires Inv(s) && RetirementOk(s) && Next(s, e) == Some(s')
    ensures RetirementOk(s')
  {
    match e
    case WorkerDoes(w) => WorkerAside(s, w, s');
    case PrepareDoes(p) => PrepareAside(s, p, s');
    case CallDoes(t, c) =>
      if Pc(s, t).Retiring? {
        FinisherKeeps(s, t, Pc(s, t).fin, c, s');
      } else if Pc(s, t).Idle? && c.CallFinish? && !s.n.life.finishing && !FinishBusy(s.n) {
        ClaimKeeps(s, t, s');
      } else {
        CallAside(s, t, c, s');
        AsideKeeps(s, t, s');
      }
  }

  /** Everything known of a reachable state. */
  ghost predicate Known(s: State) { Inv(s) && WakeOk(s) && RetirementOk(s) }

  lemma StepKnown(s: State, e: Step, s': State)
    requires Known(s) && Next(s, e) == Some(s')
    ensures Known(s')
  {
    NextKeeps(s, e, s');
    NextKeepsWake(s, e, s');
    NextKeepsRetirement(s, e, s');
  }

  lemma {:induction false} RunKnown(s: State, run: seq<Step>, s': State)
    requires Known(s) && Run(s, run) == Some(s')
    ensures Known(s')
    decreases run
  {
    if run != [] {
      var s1 := Next(s, run[0]).value;
      StepKnown(s, run[0], s1);
      RunKnown(s1, run[1..], s');
    }
  }

  lemma ReachableKnown(s: State)
    requires Reachable(s)
    ensures Known(s)
  {
    var authority: int, run: seq<Step> :| Run(Init(authority), run) == Some(s);
    InitKeeps(authority);
    RunKnown(Init(authority), run, s);
  }

  // ----- a refusal is for good -----

  lemma RefusalStep(s: State, e: Step, s': State)
    requires Inv(s) && RetirementOk(s) && OwnedRefused(s) && Next(s, e) == Some(s')
    ensures OwnedRefused(s') && forall t | Pc(s, t).WaitDone? :: Pc(s', t).WaitDone?
  {
    match e
    case WorkerDoes(w) => WorkerAside(s, w, s');
    case PrepareDoes(p) => PrepareAside(s, p, s');
    case CallDoes(t, c) => CallAside(s, t, c, s');
  }

  /** Once FinishOwnedV1 has answered nonzero, in every continuation retirement stays claimed, `done`
      stays open, nobody is at it, and every later FinishV1 that waits for it goes on waiting. */
  lemma {:induction false} RefusedForever(s: State, run: seq<Step>, s': State)
    requires Reachable(s) && OwnedRefused(s) && Run(s, run) == Some(s')
    ensures OwnedRefused(s') && Abandoned(s') && forall t | Pc(s, t).WaitDone? :: Pc(s', t).WaitDone?
  {
    ReachableKnown(s);
    RefusedFrom(s, run, s');
  }

  lemma {:induction false} RefusedFrom(s: State, run: seq<Step>, s': State)
    requires Known(s) && OwnedRefused(s) && Run(s, run) == Some(s')
    ensures OwnedRefused(s') && Abandoned(s') && forall t | Pc(s, t).WaitDone? :: Pc(s', t).WaitDone?
    decreases run
  {
    if run != [] {
      var s1 := Next(s, run[0]).value;
      RefusalStep(s, run[0], s1);
      StepKnown(s, run[0], s1);
      RefusedFrom(s1, run[1..], s');
    }
  }

  // ----- without one, retirement can complete -----

  /** A step taken after a run. */
  lemma Then(s: State, run: seq<Step>, s1: State, e: Step) returns (run': seq<Step>, s2: State)
    requires Known(s) && Run(s, run) == Some(s1) && Next(s1, e).Some?
    ensures Run(s, run') == Some(s2) && Next(s1, e) == Some(s2) && Known(s2)
  {
    run', s2 := run + [e], Next(s1, e).value;
    RunSnoc(s, run, s1, e);
    RunKnown(s, run', s2);
  }

  /** A step of a stage towards its end, with the least cooperative answers. */
  function StageForward(g: Stage, pc: StagePc): CallStep {
    match pc
    case StageSignal(_) => CallSignal
    case StageCheck(_) => CallCheck(0, false)
    case Body => if g == Connect || g == Attach then CallInputs(false) else CallWrite(false, false, false)
    case ConnLease => CallLease(true)
    case Leasing(conn) =>
      (match conn
       case Dial(_) => CallDial(false, false)
       case Adopt(_) => CallAdopt(false)
       case Convert(_) => CallConvert(false)
       case Register(_, _) => CallRegister
       case FileClose(_, _) => CallFileClose(false)
       case Commit(_, _, _) => CallCommit(true)
       case Release(_) => CallRelease)
    case ConnSignal(_) => CallSignal
    case ConnPreface => CallPreface(false)
    case AttachPump => CallCheck(0, false)
    case AttachResult(_) => CallDropResult
    case AttachBind(_) => CallCheck(0, false)
    case Leaving(_, _) => CallLeave(3)
  }

  function StageRank(pc: StagePc): nat {
    match pc
    case Leaving(_, _) => 1
    case ConnPreface => 2
    case ConnLease => 2
    case AttachPump => 2
    case AttachBind(_) => 2
    case AttachResult(_) => 3
    case ConnSignal(_) => 3
    case Leasing(conn) =>
      (match conn
       case Release(_) => 4
       case Commit(_, _, _) => 5
       case FileClose(_, _) => 6
       case Register(_, _) => 7
       case Convert(_) => 8
       case Adopt(_) => 9
       case Dial(_) => 10)
    case Body => 4
    case StageCheck(_) => 4
    case StageSignal(_) => 5
  }

  lemma ConnectorForward(s: State, t: nat, conn: ConnectPc)
    ensures var s' := ConnectorNext(s, t, conn, StageForward(Connect, Leasing(conn)));
            s'.Some? && Pc(s'.value, t).InStage? && StageRank(Pc(s'.value, t).at) < StageRank(Leasing(conn))
  {}

  lemma StageGoesForward(s: State, t: nat, g: Stage, pc: StagePc)
    requires !pc.Leasing?
    ensures var s' := StageNext(s, t, g, pc, StageForward(g, pc));
            && s'.Some?
            && (pc.Leaving? ==> s'.value.who.stage == None)
            && (!pc.Leaving? ==> Pc(s'.value, t).InStage? && StageRank(Pc(s'.value, t).at) < StageRank(pc))
  {}

  /** A stage in progress can be brought to its end without touching retirement. */
  lemma StageCanLeave(s: State) returns (run: seq<Step>, s': State)
    requires Known(s) && s.n.life.busy
    ensures Run(s, run) == Some(s') && Known(s') && !s'.n.life.busy && Aside(s, s')
    decreases StageRank(Pc(s, s.who.stage.value).at)
  {
    var t := s.who.stage.value;
    var g, pc := Pc(s, t).stage, Pc(s, t).at;
    var e := CallDoes(t, StageForward(g, pc));
    if pc.Leasing? {
      ConnectorForward(s, t, pc.conn);
    } else {
      StageGoesForward(s, t, g, pc);
    }
    var s1 := Next(s, e).value;
    StepKnown(s, e, s1);
    CallAside(s, t, e.c, s1);
    if s1.n.life.busy {
      var rest;
      rest, s' := StageCanLeave(s1);
      run := [e] + rest;
      assert run[0] == e && run[1..] == rest;
    } else {
      run, s' := [e], s1;
      assert [e][1..] == [];
    }
  }

  lemma {:induction false} Above(threads: set<nat>) returns (t: nat)
    ensures forall u | u in threads :: u < t
  {
    if threads == {} {
      t := 0;
    } else {
      var u :| u in threads;
      var rest := Above(threads - {u});
      t := if rest > u then rest else u + 1;
      assert forall v | v in threads :: v == u || v in threads - {u};
    }
  }

  function FinishRank(pc: FinishPc): nat {
    match pc
    case FinFail => 8
    case FinSignal => 7
    case FinService => 6
    case FinPacket => 5
    case FinCarrier => 4
    case FinResult => 3
    case FinConnector => 2
    case FinCloser => 1
    case FinOwned => 0
    case FinCommit => 0
    case FinClose => 0
  }

  function FinishForward(pc: FinishPc): CallStep {
    match pc
    case FinFail => CallFail
    case FinSignal => CallSignal
    case FinService => CallDrop
    case FinPacket => CallDrop
    case FinCarrier => CallDrop
    case FinResult => CallDrop
    case FinConnector => CallJoin
    case FinCloser => CallJoin
    case FinOwned => CallFinishOwned(0)
    case FinCommit => CallFinishCommit
    case FinClose => CallCloseDone
  }

  lemma FinishGoesForward(s: State, t: nat, pc: FinishPc)
    requires FinishRank(pc) > 0 && (Joining(pc) ==> s.n.link.doneCloses > 0 && s.n.ends.closer > 0)
    ensures var s' := FinishNext(s, t, pc, FinishForward(pc));
            s'.Some? && Pc(s'.value, t).Retiring? && FinishRank(Pc(s'.value, t).fin) < FinishRank(pc)
            && s'.value.worker == s.worker
            && (FinishRank(Pc(s'.value, t).fin) == 0 ==> Pc(s'.value, t).fin == FinOwned)
  {}

  /** The thread that claimed retirement can reach FinishOwnedV1, if need be once the worker has ended. */
  lemma CanReachOwned(s: State, t: nat) returns (run: seq<Step>, s': State)
    requires Known(s) && Pc(s, t).Retiring? && (FinishRank(Pc(s, t).fin) > 0 || Pc(s, t).fin == FinOwned)
    ensures Run(s, run) == Some(s') && Known(s') && Pc(s', t) == Retiring(FinOwned)
    decreases FinishRank(Pc(s, t).fin), if s.worker.Finished? then 0 else 1
  {
    var pc := Pc(s, t).fin;
    if pc == FinOwned {
      run, s' := [], s;
    } else if Joining(pc) && !s.worker.Finished? {
      var first, s1 := WorkerCanFinish(s);
      RunKnown(s, first, s1);
      var rest;
      rest, s' := CanReachOwned(s1, t);
      run := first + rest;
      RunJoin(s, first, s1, rest);
    } else {
      var e := CallDoes(t, FinishForward(pc));
      FinishGoesForward(s, t, pc);
      var s1 := Next(s, e).value;
      StepKnown(s, e, s1);
      var rest;
      rest, s' := CanReachOwned(s1, t);
      run := [e] + rest;
      assert run[0] == e && run[1..] == rest;
    }
  }

  lemma OwnedStep(s: State, t: nat, status: int)
    requires Pc(s, t) == Retiring(FinOwned)
    ensures var s' := Next(s, CallDoes(t, CallFinishOwned(status)));
            s'.Some? && s'.value.os.owned == Some(status)
            && Pc(s'.value, t) == if status == 0 then Retiring(FinCommit) else Idle
  {}

  lemma CommitStep(s: State, t: nat)
    requires Pc(s, t) == Retiring(FinCommit)
    ensures var s' := Next(s, CallDoes(t, CallFinishCommit)); s'.Some? && Pc(s'.value, t) == Retiring(FinClose)
  {}

  lemma CloseStep(s: State, t: nat)
    requires RetireOk(s) && Pc(s, t) == Retiring(FinClose)
    ensures var s' := Next(s, CallDoes(t, CallCloseDone)); s'.Some? && s'.value.n.ends.done == 1
  {}

  /** From FinishOwnedV1 on. */
  lemma CanCloseFrom(s: State, run: seq<Step>, s1: State, t: nat) returns (run': seq<Step>, s': State)
    requires Known(s) && Run(s, run) == Some(s1) && Pc(s1, t).Retiring? && FinishRank(Pc(s1, t).fin) == 0
    ensures Run(s, run') == Some(s') && s'.n.ends.done == 1
    decreases if Pc(s1, t).fin.FinOwned? then 2 else if Pc(s1, t).fin.FinCommit? then 1 else 0
  {
    RunKnown(s, run, s1);
    var pc := Pc(s1, t).fin;
    if pc.FinOwned? {
      OwnedStep(s1, t, 0);
      run', s' := Then(s, run, s1, CallDoes(t, CallFinishOwned(0)));
      run', s' := CanCloseFrom(s, run', s', t);
    } else if pc.FinCommit? {
      CommitStep(s1, t);
      run', s' := Then(s, run, s1, CallDoes(t, CallFinishCommit));
      run', s' := CanCloseFrom(s, run', s', t);
    } else {
      CloseStep(s1, t);
      run', s' := Then(s, run, s1, CallDoes(t, CallCloseDone));
    }
  }

  lemma FinisherCanClose(s: State, run: seq<Step>, s1: State, t: nat) returns (run': seq<Step>, s': State)
    requires Known(s) && Run(s, run) == Some(s1) && Pc(s1, t).Retiring?
    ensures Run(s, run') == Some(s') && s'.n.ends.done == 1
  {
    RunKnown(s, run, s1);
    if FinishRank(Pc(s1, t).fin) > 0 {
      var more, s2 := CanReachOwned(s1, t);
      RunJoin(s, run, s1, more);
      run', s' := CanCloseFrom(s, run + more, s2, t);
    } else {
      run', s' := CanCloseFrom(s, run, s1, t);
    }
  }

  /** Retirement not yet claimed can be claimed, once stage and run have ended. */
  lemma CanClaim(s: State) returns (run: seq<Step>, s': State, t: nat)
    requires Known(s) && !s.n.life.finishing
    ensures Run(s, run) == Some(s') && Known(s') && Pc(s', t) == Retiring(FinFail)
  {
    run, s' := [], s;
    if s'.n.life.busy {
      run, s' := StageCanLeave(s);
    }
    if s'.n.life.runActive {
      RunEndStep(s');
      run, s' := Then(s, run, s', CallDoes(s'.who.runner.value, CallRunEnd));
    }
    t := Above(s'.calls.Keys);
    ClaimStep(s', t);
    run, s' := Then(s, run, s', CallDoes(t, CallFinish));
  }

  lemma ClaimStep(s: State, t: nat)
    requires Pc(s, t) == Idle && !s.n.life.finishing && !FinishBusy(s.n)
    ensures var s' := Next(s, CallDoes(t, CallFinish)); s'.Some? && Pc(s'.value, t) == Retiring(FinFail)
  {}

  lemma RunEndStep(s: State)
    requires OwnersOk(s) && s.n.life.runActive
    ensures var s' := Next(s, CallDoes(s.who.runner.value, CallRunEnd));
            s'.Some? && s'.value.n.life == s.n.life.(runActive := false)
  {}

  lemma CanClose(s: State) returns (run: seq<Step>, s': State)
    requires Known(s) && !OwnedRefused(s)
    ensures Run(s, run) == Some(s') && s'.n.ends.done == 1
  {
    if s.n.ends.done == 1 {
      run, s' := [], s;
    } else if s.n.life.finishing {
      run, s' := FinisherCanClose(s, [], s, s.who.finisher.value);
    } else {
      var t;
      run, s', t := CanClaim(s);
      run, s' := FinisherCanClose(s, run, s', t);
    }
  }

  /** This run closes `done`, or finds it closed. */
  predicate Closes(s: State, run: seq<Step>) { Run(s, run).Some? && Run(s, run).value.n.ends.done == 1 }

  /** From a reachable state retirement can complete exactly when FinishOwnedV1 has not answered nonzero. */
  lemma DoneCanCloseExactlyWhen(s: State)
    requires Reachable(s)
    ensures (exists run :: Closes(s, run)) <==> !OwnedRefused(s)
  {
    ReachableKnown(s);
    if OwnedRefused(s) {
      forall run: seq<Step>
        ensures !Closes(s, run)
      {
        if Run(s, run).Some? {
          RefusedForever(s, run, Run(s, run).value);
        }
      }
    } else {
      var run, s' := CanClose(s);
      assert Closes(s, run);
    }
  }

  /** A run from a new transport to a refusal. */
  lemma RefusalHappens(authority: int, status: int) returns (s: State)
    requires status != 0
    ensures Reachable(s) && OwnedRefused(s) && s.os.owned == Some(status)
  {
    var s0 := Init(authority);
    assert Run(s0, []) == Some(s0);
    ReachableKnown(s0);
    var run, s1, t := CanClaim(s0);
    var more, s2 := CanReachOwned(s1, t);
    RunJoin(s0, run, s1, more);
    OwnedStep(s2, t, status);
    run, s := Then(s0, run + more, s2, CallDoes(t, CallFinishOwned(status)));
  }
}

/**
 What the sections decide, said of the fields alone: which verdict a failure leaves and why,
 when a descriptor is published or confirmed, when a stage is admitted and with which
 deadline, and which closes the final status reports.
 */
module AttemptVerdicts {
  import opened Options
  import opened AttemptState
  import opened AttemptProtocol
  import opened AttemptInvariants
  import opened AttemptWakeup
  import opened AttemptTheorems

  // ----- verdicts -----

  /** If a verdict was left, it was because the armed deadline had passed at the first reading of the
      clock; it is 12 exactly when the authority deadline had passed at the second, and otherwise 8. */
  predicate ByTheClock(n: Shared, n': Shared, now: int, later: int) {
    n.life.terminal == 0 && n'.life.terminal != 0 ==>
      && n.clock.deadline.Some? && n.clock.deadline.value <= now
      && (n'.life.terminal == 12 <==> n.clock.authority <= later)
      && (n'.life.terminal == 8 <==> later < n.clock.authority)
      && n'.life.cancelled && n'.life.phase == n.life.phase
  }

  lemma SectionExpiry(n: Shared, fd: int, now: int, later: int)
    ensures ByTheClock(n, SocketFD(n, now, later).0, now, later)
    ensures ByTheClock(n, Confirm(n, fd, now, later).0, now, later)
  {}

  /** The worker reads the clock once, the protection calls twice. */
  lemma WorkerExpiryVerdict(s: State, now: int, s': State)
    requires Next(s, WorkerDoes(WExpire(now))) == Some(s')
    ensures ByTheClock(s.n, s'.n, now, now)
  {}

  lemma SocketExpiryVerdict(s: State, t: nat, now: int, later: int, s': State)
    requires Pc(s, t).Idle? && Next(s, CallDoes(t, CallSocketFD(now, later))) == Some(s')
    ensures s'.n == SocketFD(s.n, now, later).0 && ByTheClock(s.n, s'.n, now, later)
  {
    SectionExpiry(s.n, 0, now, later);
  }

  lemma ConfirmExpiryVerdict(s: State, t: nat, fd: int, now: int, later: int, s': State)
    requires Pc(s, t).Idle? && Next(s, CallDoes(t, CallConfirm(fd, now, later))) == Some(s')
    ensures s'.n == Confirm(s.n, fd, now, later).0 && ByTheClock(s.n, s'.n, now, later)
  {
    SectionExpiry(s.n, fd, now, later);
  }

  /** And a passed deadline is never overlooked: by the worker that still sees it armed, or by the
      protection calls. */
  lemma WorkerExpires(s: State, now: int, s': State)
    requires WorkerNext(s, WExpire(now)) == Some(s') && s.n.life.terminal == 0
    requires s.n.clock.deadline.Some? && s.n.clock.deadline.value <= now
    requires s.worker.serial == s.n.clock.serial && s.worker.deadline == s.n.clock.deadline
    ensures s'.n.life.terminal in {8, 12}
  {}

  lemma ProtectionExpires(s: State, t: nat, c: CallStep, s': State)
    requires (c.CallSocketFD? || c.CallConfirm?) && ProtectNext(s, t, c) == Some(s') && s.n.life.terminal == 0
    requires s.n.clock.deadline.Some? && s.n.clock.deadline.value <= c.now
    ensures s'.n.life.terminal in {8, 12}
  {}

  /** What else leaves the first verdict, and which one. */
  lemma WorkerVerdict(s: State, w: WorkerStep, s': State)
    requires WorkerNext(s, w) == Some(s') && s.n.life.terminal == 0 && s'.n.life.terminal != 0 && !w.WExpire?
    ensures w.WFail? && s.worker.ParentCall? && s'.n.life.terminal == 7
  {}

  lemma ProtectVerdict(s: State, t: nat, c: CallStep, s': State)
    requires Pc(s, t).Idle? && (c.CallSocketFD? || c.CallConfirm?) && Next(s, CallDoes(t, c)) == Some(s')
    requires s.n.life.terminal == 0 && s'.n.life.terminal != 0
    ensures s'.n.life.terminal in {8, 12}
  {
    if c.CallSocketFD? {
      SocketExpiryVerdict(s, t, c.now, c.later, s');
    } else {
      ConfirmExpiryVerdict(s, t, c.fd, c.now, c.later, s');
    }
  }

  lemma StartVerdict(s: State, t: nat, c: CallStep, s': State)
    requires StartNext(s, t, c) == Some(s') && s.n.life.terminal == 0 && s'.n.life.terminal != 0
    ensures (c.CallCloseWake? && s'.n.life.terminal == 7) || (c.CallFacadeClose? && s'.n.life.terminal == 9)
  {}

  lemma OweVerdict(s: State, t: nat, pc: OwePc, c: CallStep, s': State)
    requires OweNext(s, t, pc, c) == Some(s') && s.n.life.terminal == 0 && s'.n.life.terminal != 0
    ensures pc.OweFail? && c.CallFail? && s'.n.life.terminal == pc.status
  {}

  lemma StageVerdict(s: State, t: nat, g: Stage, pc: StagePc, c: CallStep, s': State)
    requires StageNext(s, t, g, pc, c) == Some(s') && s.n.life.terminal == 0 && s'.n.life.terminal != 0
    ensures pc.Leaving? && c.CallLeave? && s'.n.life.terminal == c.status
  {}

  lemma FinishVerdict(s: State, t: nat, pc: FinishPc, c: CallStep, s': State)
    requires FinishNext(s, t, pc, c) == Some(s') && s.n.life.terminal == 0 && s'.n.life.terminal != 0
    ensures pc.FinFail? && c.CallFail? && s'.n.life.terminal == 7
  {}

  /** The cause of a first verdict and the status it has. */
  predicate Caused(s: State, e: Step, verdict: int) {
    match e
    case WorkerDoes(w) => (w.WExpire? && verdict in {8, 12}) || (w.WFail? && verdict == 7)
    case PrepareDoes(_) => false
    case CallDoes(t, c) =>
      || ((c.CallSocketFD? || c.CallConfirm?) && verdict in {8, 12})
      || (c.CallCloseWake? && verdict == 7)
      || (c.CallFacadeClose? && verdict == 9)
      || (c.CallFail? && Pc(s, t).Retiring? && verdict == 7)
      || (c.CallFail? && Pc(s, t).Owing? && Pc(s, t).owe.OweFail? && verdict == Pc(s, t).owe.status)
      || (c.CallLeave? && verdict == c.status)
  }

  /** Parent cancellation, the wake-up close and retirement leave 7, the facade's close 9, the clock
      8 or 12, a refusal what it owes, and a stage what it reports. Nothing else leaves a verdict. */
  lemma FirstVerdict(s: State, e: Step, s': State)
    requires Next(s, e) == Some(s') && StageOk(s) && s.n.life.terminal == 0 && s'.n.life.terminal != 0
    ensures Caused(s, e, s'.n.life.terminal)
  {
    match e
    case WorkerDoes(w) =>
      if !w.WExpire? {
        WorkerVerdict(s, w, s');
      }
    case PrepareDoes(p) => PrepareAdvances(s, p, s');
    case CallDoes(t, c) => CallVerdict(s, t, c, s');
  }

  lemma CallVerdict(s: State, t: nat, c: CallStep, s': State)
    requires CallNext(s, t, c) == Some(s') && StageOk(s) && s.n.life.terminal == 0 && s'.n.life.terminal != 0
    ensures Caused(s, CallDoes(t, c), s'.n.life.terminal)
  {
    match Pc(s, t)
    case Idle =>
      if c.CallSocketFD? || c.CallConfirm? {
        ProtectVerdict(s, t, c, s');
      } else {
        StartVerdict(s, t, c, s');
      }
    case Owing(pc) => OweVerdict(s, t, pc, c, s');
    case InStage(g, pc) =>
      if pc.Leasing? {
        ConnectorAdvances(s, t, pc.conn, c, s');
      } else {
        StageVerdict(s, t, g, pc, c, s');
      }
    case Retiring(pc) => FinishVerdict(s, t, pc, c, s');
    case WaitDone =>
    case Running =>
  }

  // ----- the protection hand-off -----

  predicate Passed(n: Shared, now: int) { n.clock.deadline.Some? && n.clock.deadline.value <= now }

  /** A descriptor is published exactly in phase 1, with a descriptor, unexpired and without a verdict. */
  lemma PublishesExactlyWhen(n: Shared, now: int, later: int)
    ensures var r := SocketFD(n, now, later);
            && (r.2 == 0 <==> n.life.terminal == 0 && !Passed(n, now) && n.life.phase == 1 && n.link.fd >= 0)
            && (r.2 == 0 ==> r.1 == n.link.fd && r.0 == n.(life := n.life.(phase := 2)))
            && (n.life.terminal != 0 ==> r == (n, -1, n.life.terminal))
            && (n.life.terminal == 0 && !Passed(n, now) && (n.life.phase != 1 || n.link.fd < 0) ==> r == (n, -1, 3))
  {}

  /** It is confirmed exactly when it is the published one, in phase 2. */
  lemma ConfirmsExactlyWhen(n: Shared, fd: int, now: int, later: int)
    ensures var r := Confirm(n, fd, now, later);
            && (r.1.Accepted? <==>
                  n.life.terminal == 0 && !Passed(n, now) && n.life.phase == 2 && fd >= 0 && fd == n.link.fd)
            && (r.1.Accepted? ==> r.0 == n.(life := n.life.(phase := 3)))
            && (r.1.Mismatch? ==> r.0 == n)
            && (n.life.terminal != 0 ==> r == (n, Stopped(n.life.terminal)))
            && (r.1.Mismatch? <==>
                  n.life.terminal == 0 && !Passed(n, now) && !(n.life.phase == 2 && fd >= 0 && fd == n.link.fd))
  {}

  /** A mismatch owes status 16, whatever the state. */
  lemma MismatchOwesSixteen(s: State, t: nat, fd: int, now: int, later: int)
    requires Pc(s, t).Idle? && Confirm(s.n, fd, now, later).1.Mismatch?
    ensures var s' := Next(s, CallDoes(t, CallConfirm(fd, now, later)));
            s'.Some? && s'.value.n == s.n && Pc(s'.value, t) == Owing(OweFail(16))
  {}

  // ----- stages -----

  function StageNumber(g: Stage): nat {
    match g
    case Connect => 3
    case Tls => 4
    case Kurd => 5
    case Attach => 6
  }

  /** A deadline is the earliest of the ones that apply. */
  predicate Earliest(d: int, candidates: seq<int>) {
    d in candidates && forall i | 0 <= i < |candidates| :: d <= candidates[i]
  }

  lemma StageDeadlineIsEarliest(c: Clock, now: int, ctx: Option<int>)
    ensures Earliest(StageDeadline(c, now, ctx),
                     [now + c.dialTimeout, c.authority] + if ctx.Some? then [ctx.value] else [])
  {
    var candidates := [now + c.dialTimeout, c.authority] + if ctx.Some? then [ctx.value] else [];
    assert candidates[0] == now + c.dialTimeout && candidates[1] == c.authority;
    assert ctx.Some? ==> candidates[2] == ctx.value;
  }

  lemma PrepareDeadlineIsEarliest(n: Shared, dialTimeout: int, now: int)
    ensures var n' := PrepareDeadline(n, dialTimeout, now);
            && n'.clock.dialTimeout == dialTimeout && n'.clock.deadline.Some?
            && Earliest(n'.clock.deadline.value, [now + dialTimeout, n.clock.authority])
            && n' == n.(clock := n.clock.(dialTimeout := dialTimeout, deadline := n'.clock.deadline))
  {
    var candidates := [now + dialTimeout, n.clock.authority];
    assert candidates[0] == now + dialTimeout && candidates[1] == n.clock.authority;
  }

  /** A stage is admitted exactly from its own phase with no verdict and nobody busy or finishing; a
      refusal owes status 3; a standing verdict is only reported. */
  lemma AdmitsExactlyWhen(s: State, t: nat, g: Stage, now: int, ctx: Option<int>)
    requires Pc(s, t).Idle?
    ensures var s' := Next(s, CallDoes(t, CallEnter(g, now, ctx)));
            var l := s.n.life;
            && s'.Some?
            && (Pc(s'.value, t).InStage? <==>
                  l.terminal == 0 && !l.busy && !l.finishing && l.phase == StageNumber(g)
                  && s.n.clock.serial != 0xFFFF_FFFF_FFFF_FFFF)
            && (Pc(s'.value, t).Idle? <==> l.terminal != 0)
            && (!Pc(s'.value, t).InStage? && l.terminal == 0 ==> Pc(s'.value, t) == Owing(OweFail(3)))
            && (!Pc(s'.value, t).InStage? ==> s'.value.n == s.n)
            && (Pc(s'.value, t).InStage? ==>
                  && s'.value.n.life == l.(busy := true)
                  && s'.value.n.clock == s.n.clock.(serial := s.n.clock.serial + 1,
                                                    deadline := Some(StageDeadline(s.n.clock, now, ctx))))
  {}

  /** A reported success commits only with no verdict; a failure leaves a verdict unless one other than
      9 stands, and which one is decided by rank: the authority's 12 and 13, then a standing verdict. */
  lemma LeaveDecides(n: Shared, target: nat, reported: int)
    ensures var r := Leave(n, target, reported);
            var before, after := n.life.terminal, r.0.life.terminal;
            && !r.0.life.busy
            && (r.1 == 0 <==> reported == 0 && before == 0)
            && (r.1 == 0 ==> r.0.life.phase == target && after == 0)
            && (r.1 == 0 ==> r.0.clock.deadline == if target == 7 then None else n.clock.deadline)
            && (r.1 != 0 ==> r.0.life.phase == n.life.phase && r.0.clock == n.clock)
            && (r.1 != 0 && (before == 0 || before == 9) ==> after == r.1 && r.0.life.cancelled)
            && (before != 0 && before != 9 ==> after == before)
            && (reported in {12, 13} ==> r.1 == reported)
            && (reported !in {12, 13} && before != 0 && before != 9 ==> r.1 == before)
            && (reported != 0 && before in {0, 9} ==> r.1 == reported)
            && (reported == 0 && before != 0 ==> r.1 == before)
  {}

  // ----- close errors -----

  /** A failed close is kept, or is on its way from whoever made it. */
  predicate ErrorOk(s: State) {
    s.os.closeFailed <==>
      || s.n.link.closeError
      || (LeaseAt(s).Some? && LeaseAt(s).value.Commit? && LeaseAt(s).value.closeFailed)
      || ((s.worker.CloseConn? || s.worker.Retire?) && s.worker.failed)
  }

  lemma WorkerKeepsError(s: State, e: WorkerStep, s': State)
    requires ErrorOk(s) && LeaseOk(s) && WorkerOk(s) && WorkerNext(s, e) == Some(s')
    ensures ErrorOk(s')
  {
    WorkerLeavesOthers(s, e, s');
    assert LeaseAt(s') == LeaseAt(s);
  }

  lemma PrepareKeepsError(s: State, e: PrepareStep, s': State)
    requires ErrorOk(s) && LeaseOk(s) && PrepareNext(s, e) == Some(s')
    ensures ErrorOk(s')
  {
    assert s.who.lease.CallerLease? ==> LeaseAt(s') == LeaseAt(s);
  }

  lemma ConnectorKeepsError(s: State, t: nat, pc: ConnectPc, e: CallStep, s': State)
    requires ErrorOk(s) && LeaseOk(s) && Pc(s, t) == InStage(Connect, Leasing(pc))
    requires ConnectorNext(s, t, pc, e) == Some(s')
    ensures ErrorOk(s')
  {
    assert s.who.lease == CallerLease(t);
  }

  lemma StageKeepsError(s: State, t: nat, g: Stage, pc: StagePc, e: CallStep, s': State)
    requires ErrorOk(s) && LeaseOk(s) && OwnersOk(s) && StageOk(s) && LatchOk(s)
    requires Pc(s, t) == InStage(g, pc) && !pc.Leasing? && StageNext(s, t, g, pc, e) == Some(s')
    ensures ErrorOk(s')
  {
    assert !s.who.lease.CallerLease?;
  }

  lemma QuietKeepsError(s: State, t: nat, s': State)
    requires ErrorOk(s) && Quiet(s, t, s')
    ensures ErrorOk(s')
  {
    assert LeaseAt(s') == LeaseAt(s);
  }

  lemma CallerQuiet(s: State, t: nat, e: CallStep, s': State)
    requires LatchOk(s) && CallNext(s, t, e) == Some(s') && !Pc(s, t).InStage?
    ensures Quiet(s, t, s')
  {
    match Pc(s, t)
    case Idle =>
      if e.CallSocketFD? || e.CallConfirm? {
        ProtectQuiet(s, t, e, s');
      } else {
        StartQuiet(s, t, e, s');
      }
    case Owing(pc) => OweQuiet(s, t, pc, e, s');
    case Retiring(pc) => FinishQuiet(s, t, pc, e, s');
    case WaitDone =>
    case Running =>
  }

  lemma CallKeepsError(s: State, t: nat, e: CallStep, s': State)
    requires Inv(s) && ErrorOk(s) && CallNext(s, t, e) == Some(s')
    ensures ErrorOk(s')
  {
    if Pc(s, t).InStage? {
      if Pc(s, t).at.Leasing? {
        ConnectorKeepsError(s, t, Pc(s, t).at.conn, e, s');
      } else {
        StageKeepsError(s, t, Pc(s, t).stage, Pc(s, t).at, e, s');
      }
    } else {
      CallerQuiet(s, t, e, s');
      QuietKeepsError(s, t, s');
    }
  }

  lemma {:induction false} RunKeepsError(s: State, run: seq<Step>, s': State)
    requires Inv(s) && WakeOk(s) && ErrorOk(s) && Run(s, run) == Some(s')
    ensures ErrorOk(s')
    decreases run
  {
    if run != [] {
      var s1 := Next(s, run[0]).value;
      NextKeeps(s, run[0], s1);
      NextKeepsWake(s, run[0], s1);
      match run[0] {
        case WorkerDoes(w) => WorkerKeepsError(s, w, s1);
        case PrepareDoes(p) => PrepareKeepsError(s, p, s1);
        case CallDoes(t, c) => CallKeepsError(s, t, c, s1);
      }
      RunKeepsError(s1, run[1..], s');
    }
  }

  lemma ReachableError(s: State)
    requires Reachable(s)
    ensures ErrorOk(s)
  {
    var authority: int, run: seq<Step> :| Run(Init(authority), run) == Some(s);
    InitKeeps(authority);
    RunKeepsError(Init(authority), run, s);
  }

  /** A completed retirement reports 9 exactly when a close of the socket, its file or the connection
      failed, and otherwise 0; and the close error is kept exactly then, once the worker has ended. */
  lemma FinalStatus(s: State)
    requires Reachable(s)
    ensures s.worker.Finished? ==> (s.n.link.closeError <==> s.os.closeFailed)
    ensures s.n.ends.done == 1 ==> s.n.life.finishStatus == if s.os.closeFailed then 9 else 0
  {
    ReachableInv(s);
    ReachableError(s);
    if s.n.ends.done == 1 {
      DoneIsQuiescent(s);
    }
  }
}

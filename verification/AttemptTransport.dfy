/**
 The attempt transport as the mutable object it is. Each method is one section under
 the transport's mutex (or one wake signal), updating fields in place; its contract
 ties the fields to the section functions that the step system is built from.
 */
module AttemptTransport {
  import opened Options
  import opened AttemptState

  class Transport {
    var phase: nat
    var terminal: int
    var cancelled: bool
    var busy: bool
    var finishing: bool
    var runStarted: bool
    var runActive: bool
    var finishStatus: int
    var serial: nat
    var deadline: Option<int>
    var authorityDeadline: int
    var dialTimeout: int
    var connectorActive: bool
    var connectorSettled: bool
    var connectorDone: nat
    var fd: int
    var raw: bool
    var closeError: bool
    var rawClosed: nat
    var closerDone: nat
    var done: nat
    var carrier: bool
    var result: bool
    var service: bool
    var packet: bool
    var wake: bool

    ghost function View(): Shared
      reads this
    {
      Shared(Life(phase, terminal, cancelled, busy, finishing, runStarted, runActive, finishStatus),
             Clock(serial, deadline, authorityDeadline, dialTimeout),
             Link(connectorActive, connectorSettled, connectorDone, fd, raw, closeError),
             Ends(rawClosed, closerDone, done), Children(carrier, result, service, packet), wake)
    }

    constructor (authority: int)
      ensures View() == Root(authority)
    {
      phase, terminal, cancelled, finishStatus := PREPARED, 0, false, 0;
      busy, finishing, runStarted, runActive := false, false, false, false;
      serial, deadline, authorityDeadline, dialTimeout := 0, Some(authority), authority, 0;
      connectorActive, connectorSettled, connectorDone := false, false, 0;
      fd, raw, closeError := -1, false, false;
      rawClosed, closerDone, done := 0, 0, 0;
      carrier, result, service, packet, wake := false, false, false, false, false;
    }

    method Signal()
      modifies this
      ensures View() == AttemptState.Signal(old(View()))
    {
      if !wake {
        wake := true;
      }
    }

    /** failV1 up to its signal: the first verdict stands. */
    method Fail(status: int)
      modifies this
      ensures View() == AttemptState.Fail(old(View()), status)
      ensures terminal == (if old(terminal) == 0 then status else old(terminal)) && cancelled
    {
      if terminal == 0 {
        terminal := status;
      }
      cancelled := true;
    }

    /** Returns whether the decision was still current; only then is there a signal to send. */
    method ExpireObserved(observed: nat, at: Option<int>, now: int) returns (applied: bool)
      modifies this
      ensures applied == ExpiryApplies(old(View()), observed, at, now)
      ensures View() == AttemptState.ExpireObserved(old(View()), observed, at, now)
      ensures !applied ==> View() == old(View())
      ensures applied <==>
                old(terminal) == 0 && serial == observed && deadline == at && at.Some? && at.value <= now
      ensures applied ==> terminal == (if authorityDeadline <= now then 12 else 8) && cancelled
    {
      if terminal != 0 || serial != observed || deadline != at || at.None? || now < at.value {
        return false;
      }
      terminal := 8;
      if authorityDeadline <= now {
        terminal := 12;
      }
      cancelled := true;
      return true;
    }

    method ExpireInline(now: int, later: int)
      modifies this
      ensures View() == if InlineExpires(old(View()), now) then AttemptState.ExpireInline(old(View()), later)
              else old(View())
      ensures old(terminal) == 0 && deadline.Some? && deadline.value <= now ==>
                terminal == (if authorityDeadline <= later then 12 else 8) && cancelled && wake
      ensures !(old(terminal) == 0 && deadline.Some? && deadline.value <= now) ==> View() == old(View())
    {
      if deadline.Some? && deadline.value <= now && terminal == 0 {
        terminal := 8;
        if authorityDeadline <= later {
          terminal := 12;
        }
        cancelled := true;
        Signal();
      }
    }

    /** A published descriptor comes with status zero and moves the phase; nothing else does. */
    method SocketFD(now: int, later: int) returns (published: int, status: int)
      modifies this
      ensures (View(), published, status) == AttemptState.SocketFD(old(View()), now, later)
      ensures status == 0 ==> published >= 0 && published == fd && terminal == 0 && phase == old(phase) + 1
      ensures status != 0 ==> published == -1 && phase == old(phase)
    {
      ExpireInline(now, later);
      if terminal != 0 {
        return -1, terminal;
      }
      if phase != PREPARED || fd < 0 {
        return -1, 3;
      }
      phase := PUBLISHED;
      return fd, 0;
    }

    /** The section of ConfirmProtectedV1: it accepts only the exact published descriptor. */
    method Confirm(candidate: int, now: int, later: int) returns (verdict: Verdict)
      modifies this
      ensures (View(), verdict) == AttemptState.Confirm(old(View()), candidate, now, later)
      ensures verdict.Accepted? ==> candidate == fd && fd >= 0 && terminal == 0
    {
      ExpireInline(now, later);
      if terminal != 0 {
        return Stopped(terminal);
      }
      if phase != PUBLISHED || candidate < 0 || candidate != fd {
        return Mismatch;
      }
      phase := CONFIRMED;
      return Accepted;
    }

    method Enter(wanted: nat, now: int, ctx: Option<int>) returns (entry: Entry)
      modifies this
      ensures (View(), entry) == AttemptState.Enter(old(View()), wanted, now, ctx)
      ensures entry.Admitted? ==> entry.deadline <= authorityDeadline && (ctx.Some? ==> entry.deadline <= ctx.value)
    {
      if terminal != 0 {
        return Dead(terminal);
      }
      if busy || finishing || phase != wanted || serial == MAX_SERIAL {
        return Refused;
      }
      busy := true;
      serial := serial + 1;
      var d := now + dialTimeout;
      if authorityDeadline < d {
        d := authorityDeadline;
      }
      if ctx.Some? && ctx.value < d {
        d := ctx.value;
      }
      deadline := Some(d);
      return Admitted(d);
    }

    /** Which status leaveV1 settles on: success only with no verdict standing; a failure stays a
        failure; the authority's 12 and 13 stand; any other verdict than the generic 9 wins. */
    method SettledStatus(reported: int) returns (status: int)
      ensures status == LeaveStatus(terminal, reported)
      ensures status == 0 <==> reported == 0 && terminal == 0
      ensures reported == 12 || reported == 13 ==> status == reported
      ensures reported != 12 && reported != 13 && terminal != 0 && terminal != 9 ==> status == terminal
      ensures reported != 0 && (terminal == 0 || terminal == 9) ==> status == reported
    {
      status := reported;
      if status != 12 && status != 13 && terminal != 0 && terminal != 9 {
        status := terminal;
      }
      if status == 0 && terminal != 0 {
        status := terminal;
      }
    }

    /** A stage that succeeded moves the phase; the last one takes the deadline away. */
    method Advance(target: nat)
      modifies this
      ensures var n, d := old(View()), if target == ATTACHED then None else old(deadline);
              View() == n.(life := n.life.(phase := target), clock := n.clock.(deadline := d))
    {
      phase := target;
      if target == ATTACHED {
        deadline := None;
      }
    }

    /** Returns the status the stage reports. */
    method Leave(target: nat, reported: int) returns (status: int)
      modifies this
      ensures (View(), status) == AttemptState.Leave(old(View()), target, reported)
      ensures !busy && (status == 0 ==> old(terminal) == 0 && phase == target)
    {
      status := SettledStatus(reported);
      if status == 0 {
        Advance(target);
      } else if terminal == 0 || terminal == 9 {
        terminal := status;
        cancelled := true;
      }
      busy := false;
    }

    method PrepareDeadline(timeout: int, now: int)
      modifies this
      ensures View() == AttemptState.PrepareDeadline(old(View()), timeout, now)
    {
      dialTimeout := timeout;
      var d := now + timeout;
      if authorityDeadline < d {
        d := authorityDeadline;
      }
      deadline := Some(d);
    }

    method PrepareLease() returns (leased: bool)
      modifies this
      ensures leased == PrepareMayLease(old(View()))
      ensures leased <==> terminal == 0 && !old(connectorActive) && !connectorSettled
      ensures View() == if leased then old(View()).(link := old(View()).link.(active := true)) else old(View())
    {
      if terminal != 0 || connectorActive || connectorSettled {
        return false;
      }
      connectorActive := true;
      return true;
    }

    method PrepareRelease()
      modifies this
      ensures View() == AttemptState.PrepareRelease(old(View()))
    {
      connectorActive := false;
      if terminal != 0 && !connectorSettled {
        connectorSettled := true;
        connectorDone := connectorDone + 1;
      }
    }

    /** The connector leases the stored descriptor and works on its own copy. */
    method ConnectLease() returns (leased: bool, descriptor: int)
      modifies this
      ensures leased == ConnectMayLease(old(View()))
      ensures leased <==> terminal == 0 && fd >= 0 && !old(connectorActive) && !connectorSettled
      ensures leased ==> descriptor == fd && descriptor >= 0
      ensures View() == if leased then old(View()).(link := old(View()).link.(active := true)) else old(View())
    {
      if terminal != 0 || fd < 0 || connectorActive || connectorSettled {
        return false, -1;
      }
      connectorActive := true;
      return true, fd;
    }

    method ConnectCommit(closeFailed: bool) returns (verdict: int)
      modifies this
      ensures View() == AttemptState.ConnectCommit(old(View()), closeFailed)
      ensures verdict == terminal
    {
      fd := -1;
      if !closeError {
        closeError := closeFailed;
      }
      verdict := terminal;
    }

    method ConnectRelease()
      modifies this
      ensures View() == AttemptState.ConnectRelease(old(View()))
    {
      connectorActive := false;
      connectorSettled := true;
      connectorDone := connectorDone + 1;
    }

    /** The worker's snapshot; it settles an unleased connector on the way out of its loop. */
    method WorkerObserve() returns (verdict: int, atSerial: nat, atDeadline: Option<int>)
      modifies this
      ensures View() == AttemptState.WorkerObserve(old(View()))
      ensures verdict == terminal && atSerial == serial && atDeadline == deadline
    {
      verdict, atSerial, atDeadline := terminal, serial, deadline;
      if verdict != 0 && !connectorActive && !connectorSettled {
        connectorSettled := true;
        connectorDone := connectorDone + 1;
      }
    }

    method WorkerTake() returns (takenFd: int, takenRaw: bool)
      modifies this
      ensures View() == AttemptState.WorkerTake(old(View()))
      ensures takenFd == old(fd) && takenRaw == old(raw)
    {
      takenFd, takenRaw := fd, raw;
      fd := -1;
    }

    method WorkerCommit(failed: bool)
      modifies this
      ensures View() == AttemptState.WorkerCommit(old(View()), failed)
    {
      raw := false;
      if !closeError {
        closeError := failed;
      }
    }

    /** FinishV1's first section: busy, already claimed, or claimed now. */
    method FinishClaim() returns (wasBusy: bool, claimed: bool)
      modifies this
      ensures wasBusy == FinishBusy(old(View())) == (busy || runActive)
      ensures claimed == (!wasBusy && !old(finishing))
      ensures View() == if claimed then old(View()).(life := old(View()).life.(finishing := true)) else old(View())
    {
      if busy || runActive {
        return true, false;
      }
      if finishing {
        return false, false;
      }
      finishing := true;
      return false, true;
    }

    method FinishCommit()
      modifies this
      ensures View() == AttemptState.FinishCommit(old(View()))
    {
      finishStatus := 0;
      if closeError {
        finishStatus := 9;
      }
    }

    method RunClaim() returns (claimed: bool)
      modifies this
      ensures claimed == RunMayStart(old(View()))
      ensures claimed <==> phase == 7 && !finishing && !busy && !old(runStarted) && terminal == 0
      ensures View() == if claimed then old(View()).(life := old(View()).life.(runStarted := true, runActive := true))
                        else old(View())
    {
      if phase != ATTACHED || finishing || busy || runStarted || terminal != 0 {
        return false;
      }
      runStarted, runActive := true, true;
      return true;
    }

    method RunEnd()
      modifies this
      ensures View() == old(View()).(life := old(View()).life.(runActive := false))
    {
      runActive := false;
    }

    // ----- channels, and fields written outside the lock by the thread that owns them -----

    /** A receive on the wake channel. */
    method TakeToken() returns (had: bool)
      modifies this
      ensures had == old(wake) && View() == old(View()).(wake := false)
    {
      had := wake;
      wake := false;
    }

    method CloseRaw()
      modifies this
      ensures View() == old(View()).(ends := old(View()).ends.(raw := old(rawClosed) + 1))
    {
      rawClosed := rawClosed + 1;
    }

    method CloseCloser()
      modifies this
      ensures View() == old(View()).(ends := old(View()).ends.(closer := old(closerDone) + 1))
    {
      closerDone := closerDone + 1;
    }

    method CloseDone()
      modifies this
      ensures View() == old(View()).(ends := old(View()).ends.(done := old(done) + 1))
    {
      done := done + 1;
    }

    method StoreDescriptor(socket: int)
      modifies this
      ensures View() == old(View()).(link := old(View()).link.(fd := socket))
    {
      fd := socket;
    }

    method RegisterConnection(got: bool)
      modifies this
      ensures View() == old(View()).(link := old(View()).link.(raw := got))
    {
      raw := got;
    }

    method SetCarrier(present: bool)
      modifies this
      ensures View() == old(View()).(kids := old(View()).kids.(carrier := present))
    {
      carrier := present;
    }

    method SetResult(present: bool)
      modifies this
      ensures View() == old(View()).(kids := old(View()).kids.(result := present))
    {
      result := present;
    }

    method SetService(present: bool)
      modifies this
      ensures View() == old(View()).(kids := old(View()).kids.(service := present))
    {
      service := present;
    }

    method SetPacket(present: bool)
      modifies this
      ensures View() == old(View()).(kids := old(View()).kids.(packet := present))
    {
      packet := present;
    }
  }
}

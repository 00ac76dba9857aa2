/**
 The shared fields of one production attempt transport and, for every section of
 code that runs under the transport's mutex, the function it computes on them.

 Time is an integer and a zero `time.Time` is `None`. Channels that are only ever
 closed are counted: a second `close` would panic, so the number of closes is kept.
 */
module AttemptState {
  import opened Options

  const PREPARED: nat := 1
  const PUBLISHED: nat := 2
  const CONFIRMED: nat := 3
  const CONNECTED: nat := 4
  const TLS: nat := 5
  const KURD: nat := 6
  const ATTACHED: nat := 7

  const MAX_SERIAL: nat := 0xFFFF_FFFF_FFFF_FFFF

  /** Phase, verdict and the flags that admit callers. `cancelled` is the leaf context's. */
  datatype Life = Life(
    phase: nat,
    terminal: int,
    cancelled: bool,
    busy: bool,
    finishing: bool,
    runStarted: bool,
    runActive: bool,
    finishStatus: int)

  datatype Clock = Clock(serial: nat, deadline: Option<int>, authority: int, dialTimeout: int)

  /** The connector lease and what it protects. `raw` says a connection is registered. */
  datatype Link = Link(active: bool, settled: bool, doneCloses: nat, fd: int, raw: bool, closeError: bool)

  /** How often rawClosed, closerDone and done were closed. */
  datatype Ends = Ends(raw: nat, closer: nat, done: nat)

  /** Children present: TLS carrier, handshake result, service pump, packet pump. */
  datatype Children = Children(carrier: bool, result: bool, service: bool, packet: bool)

  /** `wake` says a token is buffered in the one-slot wake channel. */
  datatype Shared = Shared(life: Life, clock: Clock, link: Link, ends: Ends, kids: Children, wake: bool)

  /** A transport as `newProductionTransportRootV1` leaves it, before its worker runs. */
  function Root(authority: int): Shared {
    Shared(Life(PREPARED, 0, false, false, false, false, false, 0), Clock(0, Some(authority), authority, 0),
           Link(false, false, 0, -1, false, false), Ends(0, 0, 0), Children(false, false, false, false), false)
  }

  function Min(a: int, b: int): int { if b < a then b else a }

  // ----- wake channel, failure latch and deadline -----

  /** A send on the one-slot channel: a full buffer drops the new token. */
  function Signal(n: Shared): Shared { n.(wake := true) }

  function Latch(l: Life, status: int): Life { l.(terminal := status, cancelled := true) }

  function Fail(n: Shared, status: int): Shared {
    n.(life := Latch(n.life, if n.life.terminal == 0 then status else n.life.terminal))
  }

  /** A deadline verdict reached at `now`: the authority deadline gives 12, any other 8. */
  function ExpiryStatus(c: Clock, now: int): int { if now < c.authority then 8 else 12 }

  predicate ExpiryApplies(n: Shared, serial: nat, deadline: Option<int>, now: int) {
    && n.life.terminal == 0 && n.clock.serial == serial && n.clock.deadline == deadline
    && deadline.Some? && deadline.value <= now
  }

  function ExpireObserved(n: Shared, serial: nat, deadline: Option<int>, now: int): Shared {
    if ExpiryApplies(n, serial, deadline, now) then n.(life := Latch(n.life, ExpiryStatus(n.clock, now))) else n
  }

  /** The check that opens SocketFDV1 and ConfirmProtectedV1. */
  predicate InlineExpires(n: Shared, now: int) {
    n.clock.deadline.Some? && n.clock.deadline.value <= now && n.life.terminal == 0
  }

  /** Its effect; the signal is sent inside the lock. */
  function ExpireInline(n: Shared, later: int): Shared {
    Signal(n.(life := Latch(n.life, ExpiryStatus(n.clock, later))))
  }

  // ----- protection hand-off -----

  /** Descriptor and status returned, with the new state. */
  function SocketFD(n: Shared, now: int, later: int): (Shared, int, int) {
    if InlineExpires(n, now) then (ExpireInline(n, later), -1, ExpiryStatus(n.clock, later))
    else if n.life.terminal != 0 then (n, -1, n.life.terminal)
    else if n.life.phase != PREPARED || n.link.fd < 0 then (n, -1, 3)
    else (n.(life := n.life.(phase := PUBLISHED)), n.link.fd, 0)
  }

  /** What ConfirmProtectedV1 decides under the lock; a mismatch owes `failV1(16)` outside it. */
  datatype Verdict = Stopped(status: int) | Mismatch | Accepted

  function Confirm(n: Shared, fd: int, now: int, later: int): (Shared, Verdict) {
    if InlineExpires(n, now) then (ExpireInline(n, later), Stopped(ExpiryStatus(n.clock, later)))
    else if n.life.terminal != 0 then (n, Stopped(n.life.terminal))
    else if n.life.phase != PUBLISHED || fd < 0 || fd != n.link.fd then (n, Mismatch)
    else (n.(life := n.life.(phase := CONFIRMED)), Accepted)
  }

  // ----- serial stages -----

  /** What enterV1 decides under the lock; a refusal owes `failV1(3)` outside it. */
  datatype Entry = Dead(status: int) | Refused | Admitted(deadline: int)

  function StageDeadline(c: Clock, now: int, ctx: Option<int>): int {
    var d := Min(now + c.dialTimeout, c.authority);
    if ctx.Some? then Min(d, ctx.value) else d
  }

  function Enter(n: Shared, phase: nat, now: int, ctx: Option<int>): (Shared, Entry) {
    if n.life.terminal != 0 then (n, Dead(n.life.terminal))
    else if n.life.busy || n.life.finishing || n.life.phase != phase || n.clock.serial == MAX_SERIAL then (n, Refused)
    else
      var d := StageDeadline(n.clock, now, ctx);
      (n.(life := n.life.(busy := true), clock := n.clock.(serial := n.clock.serial + 1, deadline := Some(d))),
       Admitted(d))
  }

  /** Which status leaveV1 settles on: authority verdicts 12 and 13 stand, otherwise an
      earlier verdict wins unless it is the generic network status 9. */
  function LeaveStatus(terminal: int, status: int): int {
    var s := if status != 12 && status != 13 && terminal != 0 && terminal != 9 then terminal else status;
    if s == 0 && terminal != 0 then terminal else s
  }

  function Leave(n: Shared, phase: nat, status: int): (Shared, int) {
    var s := LeaveStatus(n.life.terminal, status);
    var l := n.life.(busy := false);
    if s == 0 then
      (n.(life := l.(phase := phase),
          clock := n.clock.(deadline := if phase == ATTACHED then None else n.clock.deadline)), s)
    else if l.terminal == 0 || l.terminal == 9 then (n.(life := Latch(l, s)), s)
    else (n.(life := l), s)
  }

  // ----- descriptor lease -----

  function Settle(k: Link): Link { k.(settled := true, doneCloses := k.doneCloses + 1) }

  function PrepareDeadline(n: Shared, dialTimeout: int, now: int): Shared {
    n.(clock := n.clock.(dialTimeout := dialTimeout, deadline := Some(Min(now + dialTimeout, n.clock.authority))))
  }

  predicate PrepareMayLease(n: Shared) { n.life.terminal == 0 && !n.link.active && !n.link.settled }

  function PrepareRelease(n: Shared): Shared {
    var k := n.link.(active := false);
    n.(link := if n.life.terminal != 0 && !k.settled then Settle(k) else k)
  }

  predicate ConnectMayLease(n: Shared) {
    n.life.terminal == 0 && 0 <= n.link.fd && !n.link.active && !n.link.settled
  }

  function ConnectCommit(n: Shared, closeFailed: bool): Shared {
    n.(link := n.link.(fd := -1, closeError := n.link.closeError || closeFailed))
  }

  function ConnectRelease(n: Shared): Shared { n.(link := Settle(n.link.(active := false))) }

  // ----- close worker -----

  function WorkerObserve(n: Shared): Shared {
    if n.life.terminal != 0 && !n.link.active && !n.link.settled then n.(link := Settle(n.link)) else n
  }

  function WorkerTake(n: Shared): Shared { n.(link := n.link.(fd := -1)) }

  function WorkerCommit(n: Shared, failed: bool): Shared {
    n.(link := n.link.(raw := false, closeError := n.link.closeError || failed))
  }

  // ----- finish and run -----

  predicate FinishBusy(n: Shared) { n.life.busy || n.life.runActive }

  function FinishCommit(n: Shared): Shared {
    n.(life := n.life.(finishStatus := if n.link.closeError then 9 else 0))
  }

  /** The guard of ServicePumpV1, and of RunV1 together with the next one. */
  predicate Attached(n: Shared) { n.life.phase == ATTACHED && !n.life.finishing && n.life.terminal == 0 }

  predicate RunMayStart(n: Shared) { Attached(n) && !n.life.busy && !n.life.runStarted }
}

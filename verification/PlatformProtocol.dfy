/**
 A registry slot as a step system. Platform callbacks run outside the lock, so most
 operations are several steps; any number of threads interleave, a cancellation hook
 may fire while its call is in flight, and a platform failure may be recorded at any
 time. The platform is assumed to accept the close of a given child at most once.
 */
module PlatformProtocol {
  import opened Options
  import opened PlatformSlot
  import opened Sums

  /** A registered child: the object the platform handed an identifier for. */
  datatype Child = Child(
    kind: ChildKind,
    platform: nat,
    id: nat,
    parent: nat,     // the revision, for a publication
    signal: nat,     // the loss signal, with its epoch and attempt, for a transport lease
    epoch: nat,
    attempt: nat,
    closed: bool)

  datatype CallKind = PlainCall | PublicationCall(revision: nat) | TransportCall(signal: nat)

  /** Where a thread is. A point with the busy bit held says so by its place in `Holding`. */
  datatype Pc =
    | Idle
    | FailOwed
    | LossReserved(signal: nat)
    | RevisionReserved(signal: nat)
    | CloseChecked(child: nat)
    | CurrencyChecked(child: nat)
    | Sinking(signal: nat)
    | Holding(op: Op)

  datatype Op =
    | Finalizing
    | CallAdmitted(kind: CallKind)
    | Calling(kind: CallKind, id: nat)
    | Acquiring(revision: nat, id: nat)
    | CallReturned(id: nat)
    | CallSettled(id: nat)
    | Capturing
    | Registering(signal: nat)
    | ClosingChild(child: nat)
    | CloseAnswered(child: nat, accepted: bool)
    | AskingCurrency(child: nat)
    | CurrencyAnswered(child: nat, current: bool)
    | Ending

  /** The platform each thread works for is fixed for the operation. */
  datatype Thread = Thread(platform: nat, pc: Pc)

  datatype Hook = Armed | Firing | Returned | Stopped

  datatype CloseKey = CloseKey(platform: nat, kind: ChildKind, id: nat)

  /** The world outside the registry: hooks by call, closes of each loss channel by signal,
      and the closes the platform has accepted. */
  datatype World = World(hooks: map<nat, Hook>, channels: map<nat, nat>, accepted: set<CloseKey>)

  /** History: the holder of the busy bit, the threads that own the two reservations, and the
      thread whose invalidation sink is running. */
  datatype Owners = Owners(busy: Option<nat>, registrar: Option<nat>, lossOwner: Option<nat>, sinker: Option<nat>)

  datatype State = State(
    slot: Slot,
    used: set<nat>,              // platform references ever handed out
    children: map<nat, Child>,
    threads: map<nat, Thread>,
    world: World,
    who: Owners)

  function Init(): State {
    State(EMPTY, {}, map[], map[], World(map[], map[], {}), Owners(None, None, None, None))
  }

  function At(s: State, t: nat): Thread { if t in s.threads then s.threads[t] else Thread(0, Idle) }

  function Go(s: State, t: nat, p: nat, pc: Pc): State { s.(threads := s.threads[t := Thread(p, pc)]) }

  function Key(c: Child): CloseKey { CloseKey(c.platform, c.kind, c.id) }

  function Owns(s: State, t: nat): State { s.(who := s.who.(busy := Some(t))) }

  /** A reference the program has not used for a child yet. */
  predicate FreshChild(s: State, ref: nat) { ref != 0 && ref !in s.children }

  // ----- steps that need no thread -----

  datatype FreeStep =
    | Open(platform: Platform)
    | FailPlatform(ref: nat)
    | HookFires(call: nat)
    | HookReturns(call: nat, bad: bool)
    | LossArrives(id: nat, kind: nat)

  function FreeNext(s: State, e: FreeStep): Option<State> {
    match e
    case Open(p) =>
      if s.slot.platform.ref != 0 || p.ref == 0 || p.ref in s.used || p.owner == 0 then None
      else Some(s.(slot := Occupied(p), used := s.used + {p.ref}))
    case FailPlatform(p) => Some(s.(slot := Fail(s.slot, p)))
    case HookFires(call) =>
      if call in s.world.hooks && s.world.hooks[call] == Armed
      then Some(s.(world := s.world.(hooks := s.world.hooks[call := Firing]))) else None
    case HookReturns(call, bad) =>
      if call in s.world.hooks && s.world.hooks[call] == Firing
      then Some(s.(world := s.world.(hooks := s.world.hooks[call := Returned]),
                   slot := if bad then Fail(s.slot, s.slot.platform.ref) else s.slot))
      else None
    case LossArrives(id, kind) =>
      if s.slot.platform.ref == 0 || !LossAddressed(s.slot, id, kind) then Some(s)
      else if s.slot.loss.fired then Some(s)
      else Some(s.(slot := Lose(s.slot), world := CloseChannel(s.world, id)))
  }

  function CloseChannel(w: World, id: nat): World {
    w.(channels := w.channels[id := if id in w.channels then w.channels[id] + 1 else 1])
  }

  // ----- thread steps -----

  datatype Step =
    | Finalize
    | Finalized(result: nat)
    | BeginCall(kind: CallKind)
    | RegisterCall
    | CallSkipped
    | Acquire
    | ChildGranted(ref: nat, id: nat)
    | NoChild
    | SettleHook
    | ClearCall
    | EndOperation
    | BeginCapture
    | StageCapture(lengths: seq<nat>)
    | ReserveCurrent(epoch: nat)
    | BeginRegister
    | ReserveTransport(signalKind: nat, epoch: nat, attempt: nat)
    | CheckClose(child: nat)
    | BeginClose
    | CloseAnswer(accepted: bool)
    | CommitClose
    | CheckCurrency(child: nat)
    | BeginCurrency
    | CurrencyAnswer(ok: bool, current: bool)
    | DecideCurrency
    | InvalidationArrives(id: nat)
    | SinkReturns(result: nat)
    | RecordFailure

  /** The two reservations of a signal entry; `next` is the registry counter. */
  function ReserveNext(s: State, t: nat, p: nat, e: Step, next: nat): Option<State> {
    match e
    case ReserveCurrent(epoch) =>
      if !MayReserveRevision(s.slot, p, epoch) then Some(s)
      else if next == MAX_ID then Some(s.(slot := Exhausted(s.slot)))
      else Some(Go(s.(slot := ReserveRevision(s.slot, next + 1, epoch), who := s.who.(registrar := Some(t))),
                   t, p, RevisionReserved(next + 1)))
    case ReserveTransport(kind, epoch, attempt) =>
      if !MayReserveLoss(s.slot, p, kind, epoch, attempt) then Some(s)
      else if next == MAX_ID then Some(s.(slot := Exhausted(s.slot)))
      else Some(Go(s.(slot := ReserveLoss(s.slot, next + 1, kind, epoch, attempt),
                      world := s.world.(channels := s.world.channels[next + 1 := 0]),
                      who := s.who.(lossOwner := Some(t))),
                   t, p, LossReserved(next + 1)))
    case _ => None
  }

  /** What else a thread with nothing in hand may start for platform `p`. */
  function StartNext(s: State, t: nat, p: nat, e: Step): Option<State> {
    match e
    case Finalize =>
      if !Mine(s.slot, p) then Some(s)
      else if Bare(s.slot) then Some(Owns(Go(s.(slot := FinalizeBegin(s.slot)), t, p, Holding(Finalizing)), t))
      else Some(s.(slot := FinalizeBegin(s.slot)))
    case BeginCall(kind) =>
      if kind.TransportCall? || (kind.PublicationCall? && !IsRevision(s, kind.revision, p)) then None
      else if MayBegin(s.slot, p) then Some(Owns(Go(s.(slot := Begin(s.slot)), t, p, Holding(CallAdmitted(kind))), t))
      else Some(s)
    case BeginCapture =>
      if MayBegin(s.slot, p) then Some(Owns(Go(s.(slot := Begin(s.slot)), t, p, Holding(Capturing)), t)) else Some(s)
    case CheckClose(c) =>
      if c !in s.children || s.children[c].platform != p then None
      else if s.children[c].closed then Some(s)
      else if CloseValid(s, c) then Some(Go(s, t, p, CloseChecked(c)))
      else Some(Go(s, t, p, FailOwed))
    case CheckCurrency(c) =>
      if c !in s.children || s.children[c].platform != p || s.children[c].kind != Publication then None
      else if CurrencyValid(s, c) then Some(Go(s, t, p, CurrencyChecked(c)))
      else Some(s)
    case InvalidationArrives(id) =>
      if s.slot.platform.ref != p || p == 0 || !RevisionAddressed(s.slot, id) then Some(s)
      else if SinkReady(s.slot)
      then Some(Go(s.(slot := Invalidate(s.slot), who := s.who.(sinker := Some(t))), t, p, Sinking(id)))
      else Some(s.(slot := Invalidate(s.slot)))
    case _ => None
  }

  predicate IsRevision(s: State, ref: nat, p: nat) {
    ref in s.children && s.children[ref].kind == Revision && s.children[ref].platform == p
  }

  /** The first section of a child's Close. */
  predicate CloseValid(s: State, ref: nat)
    requires ref in s.children
  {
    var c := s.children[ref];
    && Mine(s.slot, c.platform)
    && HeldRef(s.slot.held, c.kind) == ref
    && match c.kind
       case Revision => !s.slot.current.running && s.slot.held.publication == 0
       case Publication => s.slot.held.revision == c.parent
       case Transport => s.slot.loss.id == c.signal
  }

  /** The first section of a publication's IsCurrent. */
  predicate CurrencyValid(s: State, ref: nat)
    requires ref in s.children
  {
    var c := s.children[ref];
    && Mine(s.slot, c.platform) && !c.closed && Live(s.slot)
    && s.slot.held.revision == c.parent && s.slot.held.publication == ref
    && c.parent in s.children && !s.children[c.parent].closed
  }

  /** The last section of a publication's IsCurrent; it does not look at the revision again. */
  predicate CurrencyStands(s: State, ref: nat)
    requires ref in s.children
  {
    Mine(s.slot, s.children[ref].platform) && s.slot.held.publication == ref && Live(s.slot) && !s.children[ref].closed
  }

  /** Between sections with the busy bit free. */
  function WaitNext(s: State, t: nat, p: nat, pc: Pc, e: Step): Option<State> {
    match (pc, e)
    case (FailOwed, RecordFailure) => Some(Go(s.(slot := Fail(s.slot, p)), t, p, Idle))
    case (LossReserved(signal), BeginCall(kind)) =>
      if kind != TransportCall(signal) then None
      else if MayBegin(s.slot, p) then Some(Owns(Go(s.(slot := Begin(s.slot)), t, p, Holding(CallAdmitted(kind))), t))
      else Some(Go(s.(who := s.who.(lossOwner := None)), t, p, Idle))
    case (LossReserved(_), CallSkipped) => Some(Go(s.(who := s.who.(lossOwner := None)), t, p, Idle))
    case (RevisionReserved(signal), BeginRegister) =>
      if MayBegin(s.slot, p) then Some(Owns(Go(s.(slot := Begin(s.slot)), t, p, Holding(Registering(signal))), t))
      else Some(Go(s.(who := s.who.(registrar := None)), t, p, Idle))
    case (CloseChecked(c), BeginClose) =>
      if MayBeginCleanup(s.slot, p) then Some(Owns(Go(s.(slot := Begin(s.slot)), t, p, Holding(ClosingChild(c))), t))
      else Some(Go(s, t, p, FailOwed))
    case (CurrencyChecked(c), BeginCurrency) =>
      if MayBegin(s.slot, p) then Some(Owns(Go(s.(slot := Begin(s.slot)), t, p, Holding(AskingCurrency(c))), t))
      else Some(Go(s, t, p, Idle))
    case (Sinking(_), SinkReturns(result)) =>
      Some(Go(s.(slot := SinkEnd(s.slot, result), who := s.who.(sinker := None)), t, p, Idle))
    case _ => None
  }

  function Keep(s: State, t: nat, p: nat, op: Op): State { Go(s, t, p, Holding(op)) }

  /** The call protocol, with the busy bit held. */
  function CallNext(s: State, t: nat, p: nat, op: Op, e: Step, next: nat): Option<State> {
    match (op, e)
    case (CallAdmitted(kind), RegisterCall) =>
      var freed := if kind.TransportCall? then s.(who := s.who.(lossOwner := None)) else s;
      if next == MAX_ID then Some(Keep(freed.(slot := Exhausted(s.slot)), t, p, Ending))
      else Some(Keep(s.(slot := CallBegin(s.slot, next + 1),
                        world := s.world.(hooks := s.world.hooks[next + 1 := Armed])), t, p, Calling(kind, next + 1)))
    case (Calling(kind, id), CallSkipped) =>
      var freed := if kind.TransportCall? then s.(who := s.who.(lossOwner := None)) else s;
      Some(Keep(freed, t, p, CallReturned(id)))
    case (Calling(kind, id), Acquire) =>
      if !kind.PublicationCall? then None
      else if s.slot.held.publication != 0 || s.slot.held.revision != kind.revision
              || (kind.revision in s.children && s.children[kind.revision].closed)
      then Some(Keep(s, t, p, CallReturned(id)))
      else Some(Keep(s, t, p, Acquiring(kind.revision, id)))
    case (Acquiring(_, id), NoChild) => Some(Keep(s, t, p, CallReturned(id)))
    case (CallReturned(id), SettleHook) =>
      if id !in s.world.hooks then None
      else if s.world.hooks[id] == Armed
      then Some(Keep(s.(world := s.world.(hooks := s.world.hooks[id := Stopped])), t, p, CallSettled(id)))
      else if s.world.hooks[id] == Firing then None
      else Some(Keep(s, t, p, CallSettled(id)))
    case (CallSettled(id), ClearCall) => Some(Keep(s.(slot := CallClear(s.slot, id)), t, p, Ending))
    case _ => None
  }

  /** The platform granted an identifier: the child is adopted before its status is looked at. */
  function GrantNext(s: State, t: nat, p: nat, op: Op, ref: nat, id: nat): Option<State> {
    if !FreshChild(s, ref) || id == 0 then None
    else match op
      case Acquiring(revision, call) =>
        Some(Keep(Adopted(s, ref, Child(Publication, p, id, revision, 0, 0, 0, false)), t, p, CallReturned(call)))
      case Calling(kind, call) =>
        if !kind.TransportCall? then None
        else
          var lease := Child(Transport, p, id, 0, kind.signal, s.slot.loss.epoch, s.slot.loss.attempt, false);
          Some(Keep(Adopted(s, ref, lease).(who := s.who.(lossOwner := None)), t, p, CallReturned(call)))
      case Registering(signal) =>
        var revision := Child(Revision, p, id, 0, signal, 0, 0, false);
        Some(Keep(Adopted(s, ref, revision).(who := s.who.(registrar := None)), t, p, Ending))
      case _ => None
  }

  function Adopted(s: State, ref: nat, c: Child): State {
    s.(slot := Adopt(s.slot, c.kind, ref), children := s.children[ref := c])
  }

  const MAXIMA: seq<nat> := [1405996, 1118299, 512, 128, 196608]

  /** The five rows the platform announced are acceptable. */
  predicate RowsFit(lengths: seq<nat>) {
    |lengths| == 5 && (forall i | 0 <= i < 5 :: 0 < lengths[i] <= MAXIMA[i]) && Sum(lengths) <= STAGING_LIMIT
  }

  /** Everything else done with the busy bit held. */
  function HoldNext(s: State, t: nat, p: nat, op: Op, e: Step): Option<State> {
    match (op, e)
    case (Finalizing, Finalized(result)) =>
      Some(Go(s.(slot := FinalizeEnd(s.slot, p, result), who := s.who.(busy := None)), t, p, Idle))
    case (Capturing, StageCapture(lengths)) =>
      if !RowsFit(lengths) then Some(Keep(s.(slot := Fail(s.slot, p)), t, p, Ending))
      else if !Live(s.slot) then Some(Keep(s, t, p, Ending))
      else Some(Keep(s.(slot := Stage(s.slot, Sum(lengths))), t, p, Ending))
    case (Capturing, NoChild) => Some(Keep(s, t, p, Ending))
    case (Registering(_), NoChild) => Some(Keep(s.(who := s.who.(registrar := None)), t, p, Ending))
    case (ClosingChild(c), CloseAnswer(accepted)) =>
      if c !in s.children then None
      else if !accepted then Some(Keep(s, t, p, CloseAnswered(c, false)))
      else if Key(s.children[c]) in s.world.accepted then None
      else Some(Keep(s.(world := s.world.(accepted := s.world.accepted + {Key(s.children[c])})),
                     t, p, CloseAnswered(c, true)))
    case (CloseAnswered(c, accepted), CommitClose) =>
      if c !in s.children then None else Some(CommitNext(s, t, p, c, accepted))
    case (AskingCurrency(c), CurrencyAnswer(ok, current)) =>
      if ok then Some(Keep(s, t, p, CurrencyAnswered(c, current)))
      else Some(Keep(s.(slot := Fail(s.slot, p)), t, p, Ending))
    case (CurrencyAnswered(_, _), DecideCurrency) => Some(Keep(s, t, p, Ending))
    case (Ending, EndOperation) => Some(Go(s.(slot := End(s.slot, p), who := s.who.(busy := None)), t, p, Idle))
    case _ => None
  }

  /** The second section of a child's close: a transport's loss channel is closed unless the loss did it. */
  function CommitNext(s: State, t: nat, p: nat, ref: nat, accepted: bool): State
    requires ref in s.children
  {
    var c := s.children[ref];
    var s1 := s.(slot := CloseCommit(s.slot, p, c.kind, accepted));
    if !CloseSucceeds(s.slot, p, c.kind, accepted) then Keep(s1, t, p, Ending)
    else
      var w := if c.kind == Transport && !s.slot.loss.fired then CloseChannel(s.world, s.slot.loss.id) else s.world;
      Keep(s1.(children := s.children[ref := c.(closed := true)], world := w), t, p, Ending)
  }

  function ThreadNext(s: State, t: nat, p: nat, e: Step, next: nat): Option<State> {
    var at := At(s, t);
    match at.pc
    case Idle =>
      if e.ReserveCurrent? || e.ReserveTransport? then ReserveNext(s, t, p, e, next) else StartNext(s, t, p, e)
    case Holding(op) =>
      if at.platform != p then None
      else if e.ChildGranted? then GrantNext(s, t, p, op, e.ref, e.id)
      else if op.CallAdmitted? || op.Calling? || op.Acquiring? || op.CallReturned? || op.CallSettled?
      then CallNext(s, t, p, op, e, next)
      else HoldNext(s, t, p, op, e)
    case pc => if at.platform != p then None else WaitNext(s, t, p, pc, e)
  }

  /** How many identifiers a step takes from the registry counter. */
  function Taken(s: State, t: nat, p: nat, e: Step, next: nat): nat {
    if next == MAX_ID then 0
    else match e
      case ReserveCurrent(epoch) => if At(s, t).pc.Idle? && MayReserveRevision(s.slot, p, epoch) then 1 else 0
      case ReserveTransport(k, epoch, attempt) =>
        if At(s, t).pc.Idle? && MayReserveLoss(s.slot, p, k, epoch, attempt) then 1 else 0
      case RegisterCall => 1
      case _ => 0
  }
}

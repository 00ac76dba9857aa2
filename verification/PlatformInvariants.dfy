/**
 The inductive invariant of a registry slot, in seven named parts, and the proof that
 every step keeps it. `next` is the value of the registry's identifier counter, which
 other slots may advance at any time.
 */
module PlatformInvariants {
  import opened Options
  import opened PlatformSlot
  import opened PlatformProtocol

  /** The operation of the thread that holds the busy bit. */
  function HolderOp(s: State): Option<Op> {
    if s.who.busy.Some? && At(s, s.who.busy.value).pc.Holding? then Some(At(s, s.who.busy.value).pc.op) else None
  }

  predicate FlagsOk(s: State) {
    && (s.slot.flags.failure != 0 ==> s.slot.flags.terminal)
    && (s.slot.platform.ref == 0 ==> s.slot == EMPTY)
    && (s.slot.platform.ref != 0 ==> s.slot.platform.ref in s.used && s.slot.platform.owner != 0)
    && (HolderOp(s) == Some(Finalizing) ==>
          && s.slot.flags.terminal && s.slot.held == Held(0, 0, 0)
          && s.slot.current.id == 0 && s.slot.loss.id == 0)
  }

  /** The busy bit has one holder, working for the platform in the slot. */
  predicate BusyOk(s: State) {
    && (s.slot.flags.busy <==> s.who.busy.Some?)
    && (s.who.busy.Some? ==> HolderOp(s).Some?)
    && (forall t | t in s.threads && s.threads[t].pc.Holding? ::
          s.who.busy == Some(t) && Mine(s.slot, s.threads[t].platform))
  }

  /** The call a holder has registered, or zero. */
  function CallOf(op: Op): nat { if InCall(op) then op.id else 0 }

  predicate InCall(op: Op) { op.Calling? || op.Acquiring? || op.CallReturned? || op.CallSettled? }

  predicate HookLive(h: Hook) { h == Armed || h == Firing }

  /** A call or staged bytes exist only under the busy bit, and a hook that may still run
      belongs to the call in flight. */
  predicate WorkOk(s: State, next: nat) {
    && s.slot.work.call == (if HolderOp(s).Some? then CallOf(HolderOp(s).value) else 0)
    && s.slot.work.call <= next
    && s.slot.work.staging <= STAGING_LIMIT
    && (s.slot.work.staging != 0 ==> HolderOp(s) == Some(Ending))
    && (forall id | id in s.world.hooks :: 0 < id <= next)
    && (forall id | id in s.world.hooks && HookLive(s.world.hooks[id]) ::
          s.slot.work.call == id && HolderOp(s).Some? && !HolderOp(s).value.CallSettled?)
    && (HolderOp(s).Some? && InCall(HolderOp(s).value) ==> HolderOp(s).value.id in s.world.hooks)
  }

  /** Signal entries, their channels, and the sink that is running. */
  predicate SignalOk(s: State, next: nat) {
    && s.slot.current.id <= next && s.slot.loss.id <= next
    && (s.slot.current.id == 0 ==> s.slot.current == NO_SIGNAL)
    && (s.slot.current.id != 0 ==> s.slot.current.kind == 1)
    && (s.slot.loss.id == 0 ==> s.slot.loss == NO_SIGNAL)
    && (s.slot.loss.id != 0 ==>
          && s.slot.loss.channel && (s.slot.loss.kind == 2 || s.slot.loss.kind == 3)
          && s.slot.loss.id in s.world.channels
          && s.world.channels[s.slot.loss.id] == (if s.slot.loss.fired then 1 else 0))
    && (forall id | id in s.world.channels :: id <= next && s.world.channels[id] <= 1)
    && (s.slot.current.running <==> s.who.sinker.Some?)
    && (s.slot.current.running ==> s.slot.flags.terminal)
    && (s.who.sinker.Some? ==> At(s, s.who.sinker.value).pc == Sinking(s.slot.current.id))
    && (forall t | t in s.threads && s.threads[t].pc.Sinking? ::
          && s.who.sinker == Some(t) && s.threads[t].platform == s.slot.platform.ref
          && s.threads[t].pc.signal == s.slot.current.id != 0)
  }

  /** Points that own the reservation of a revision signal, and of a loss signal. */
  predicate OwnsRevision(pc: Pc, signal: nat) {
    pc == RevisionReserved(signal) || pc == Holding(Registering(signal))
  }

  predicate AtRevision(pc: Pc) { pc.RevisionReserved? || (pc.Holding? && pc.op.Registering?) }

  predicate OwnsLoss(pc: Pc, signal: nat) {
    pc == LossReserved(signal) || pc == Holding(CallAdmitted(TransportCall(signal))) ||
    (pc.Holding? && pc.op.Calling? && pc.op.kind == TransportCall(signal))
  }

  predicate AtLoss(pc: Pc) {
    pc.LossReserved? || (pc.Holding? && (pc.op.CallAdmitted? || pc.op.Calling?) && pc.op.kind.TransportCall?)
  }

  /** A reservation has one owner, for the platform in the slot, and nothing is registered on it yet. */
  predicate ReserveOk(s: State) {
    && (s.who.registrar.Some? ==>
          OwnsRevision(At(s, s.who.registrar.value).pc, s.slot.current.id) && s.slot.current.id != 0
          && s.slot.held.revision == 0)
    && (s.who.lossOwner.Some? ==>
          OwnsLoss(At(s, s.who.lossOwner.value).pc, s.slot.loss.id) && s.slot.loss.id != 0
          && s.slot.held.transport == 0)
    && (forall t | t in s.threads ::
          && (AtRevision(s.threads[t].pc) ==> s.who.registrar == Some(t) && Mine(s.slot, s.threads[t].platform))
          && (AtLoss(s.threads[t].pc) ==> s.who.lossOwner == Some(t) && Mine(s.slot, s.threads[t].platform)))
  }

  /** An open child is the one its slot holds. */
  predicate OpenOk(s: State, ref: nat)
    requires ref in s.children
  {
    var c := s.children[ref];
    && Mine(s.slot, c.platform) && HeldRef(s.slot.held, c.kind) == ref
    && (c.kind == Revision ==> s.slot.current.id != 0)
    && (c.kind == Transport ==>
          c.signal == s.slot.loss.id != 0 && c.epoch == s.slot.loss.epoch && c.attempt == s.slot.loss.attempt)
    && (c.kind == Publication && !s.slot.flags.terminal ==> s.slot.held.revision == c.parent)
  }

  /** A closed child was accepted by the platform, and took its revision's life or its channel with it. */
  predicate ClosedOk(s: State, ref: nat)
    requires ref in s.children
  {
    var c := s.children[ref];
    && Key(c) in s.world.accepted
    && (c.kind == Revision && Mine(s.slot, c.platform) ==> s.slot.flags.terminal)
    && (c.kind == Transport ==>
          && c.signal != 0 && c.signal != s.slot.loss.id
          && c.signal in s.world.channels && s.world.channels[c.signal] == 1)
  }

  predicate ChildOk(s: State) {
    && 0 !in s.children
    && (forall c | c in s.children ::
          && s.children[c].platform in s.used && s.children[c].platform != 0
          && (s.children[c].kind == Publication ==> s.children[c].parent != 0)
          && (if s.children[c].closed then ClosedOk(s, c) else OpenOk(s, c)))
    && HeldOk(s, Revision) && HeldOk(s, Publication) && HeldOk(s, Transport)
  }

  predicate HeldOk(s: State, kind: ChildKind) {
    var ref := HeldRef(s.slot.held, kind);
    ref != 0 ==> ref in s.children && s.children[ref].kind == kind && !s.children[ref].closed
  }

  /** What a thread's point promises about the child it works on. */
  predicate PointOk(children: map<nat, Child>, accepted: set<CloseKey>, held: Held, th: Thread) {
    match th.pc
    case CloseChecked(c) => c in children && children[c].platform == th.platform
    case CurrencyChecked(c) => c in children && children[c].platform == th.platform && children[c].kind == Publication
    case Holding(op) =>
      (match op
       case ClosingChild(c) => c in children && children[c].platform == th.platform
       case CloseAnswered(c, yes) =>
         && c in children && children[c].platform == th.platform
         && (yes ==> !children[c].closed && Key(children[c]) in accepted)
       case AskingCurrency(c) => c in children && children[c].platform == th.platform && children[c].kind == Publication
       case CurrencyAnswered(c, _) =>
         c in children && children[c].platform == th.platform && children[c].kind == Publication
       case Acquiring(r, _) => held.publication == 0 && held.revision == r != 0
       case CallAdmitted(k) => k.PublicationCall? ==> k.revision != 0
       case Calling(k, _) => k.PublicationCall? ==> k.revision != 0
       case _ => true)
    case _ => true
  }

  predicate TargetOk(s: State) {
    forall t | t in s.threads :: PointOk(s.children, s.world.accepted, s.slot.held, s.threads[t])
  }

  ghost predicate Inv(s: State, next: nat) {
    FlagsOk(s) && BusyOk(s) && WorkOk(s, next) && SignalOk(s, next) && ReserveOk(s) && ChildOk(s) && TargetOk(s)
  }

  lemma InitKeeps(next: nat)
    ensures Inv(Init(), next)
  {}

  lemma LaterKeeps(s: State, next: nat, later: nat)
    requires Inv(s, next) && next <= later
    ensures Inv(s, later)
  {}

  // ----- frames -----

  /** At most one thread moved. */
  predicate Moved(s: State, t: nat, s': State) {
    s'.threads == s.threads || (t in s'.threads && s'.threads == s.threads[t := s'.threads[t]])
  }

  predicate SameLoss(a: Signal, b: Signal) { a.id == b.id && a.epoch == b.epoch && a.attempt == b.attempt }

  /** No child came, went or changed hands; a new loss signal, if any, is new to every channel. */
  lemma ChildFrame(s: State, s': State)
    requires ChildOk(s)
    requires s'.children == s.children && s'.slot.platform == s.slot.platform && s'.slot.held == s.slot.held
    requires s.used <= s'.used && s.world.accepted <= s'.world.accepted
    requires s.slot.flags.terminal ==> s'.slot.flags.terminal
    requires s'.slot.current.id == s.slot.current.id || s.slot.current.id == 0
    requires SameLoss(s.slot.loss, s'.slot.loss) ||
             (s.slot.loss.id == 0 && s'.slot.loss.id !in s.world.channels)
    requires forall id | id in s.world.channels && id != s.slot.loss.id ::
               id in s'.world.channels && s'.world.channels[id] == s.world.channels[id]
    ensures ChildOk(s')
  {
    forall c | c in s'.children
      ensures if s'.children[c].closed then ClosedOk(s', c) else OpenOk(s', c)
    {
      assert s.children[c].closed ==> ClosedOk(s, c);
      assert !s.children[c].closed ==> OpenOk(s, c);
    }
  }

  lemma ReserveFrame(s: State, t: nat, s': State)
    requires ReserveOk(s) && Moved(s, t, s')
    requires !AtRevision(At(s, t).pc) && !AtLoss(At(s, t).pc)
    requires !AtRevision(At(s', t).pc) && !AtLoss(At(s', t).pc)
    requires s'.who.registrar == s.who.registrar && s'.who.lossOwner == s.who.lossOwner
    requires s'.slot.platform == s.slot.platform && s'.slot.current.id == s.slot.current.id
    requires s'.slot.loss.id == s.slot.loss.id
    requires s'.slot.held.revision == s.slot.held.revision && s'.slot.held.transport == s.slot.held.transport
    ensures ReserveOk(s')
  {}

  /** The owner of the loss reservation goes on with it, or gives it up. */
  lemma LossMoves(s: State, t: nat, s': State)
    requires ReserveOk(s) && Moved(s, t, s') && t in s.threads && t in s'.threads && AtLoss(s.threads[t].pc)
    requires s'.threads[t].platform == s.threads[t].platform && !AtRevision(s'.threads[t].pc)
    requires if AtLoss(s'.threads[t].pc) then OwnsLoss(s'.threads[t].pc, s.slot.loss.id) && s'.who.lossOwner == Some(t)
             else s'.who.lossOwner == None
    requires s'.who.registrar == s.who.registrar && s'.slot.platform == s.slot.platform
    requires s'.slot.current.id == s.slot.current.id && s'.slot.loss.id == s.slot.loss.id
    requires s'.slot.held == s.slot.held
    ensures ReserveOk(s')
  {}

  /** A held child is gone, and with a revision or a transport its signal, which nobody had reserved. */
  lemma ReserveFreed(s: State, t: nat, kind: ChildKind, s': State)
    requires ReserveOk(s) && Moved(s, t, s') && HeldRef(s.slot.held, kind) != 0
    requires !AtRevision(At(s, t).pc) && !AtLoss(At(s, t).pc)
    requires !AtRevision(At(s', t).pc) && !AtLoss(At(s', t).pc)
    requires s'.who.registrar == s.who.registrar && s'.who.lossOwner == s.who.lossOwner
    requires s'.slot.platform == s.slot.platform && s'.slot.held == Hold(s.slot.held, kind, 0)
    requires kind != Revision ==> s'.slot.current.id == s.slot.current.id
    requires kind != Transport ==> s'.slot.loss.id == s.slot.loss.id
    ensures ReserveOk(s')
  {}

  lemma SignalFrame(s: State, t: nat, next: nat, s': State)
    requires SignalOk(s, next) && Moved(s, t, s')
    requires !At(s, t).pc.Sinking? && !At(s', t).pc.Sinking?
    requires s'.who.sinker == s.who.sinker && s'.slot.platform == s.slot.platform
    requires s'.slot.current == s.slot.current && s'.slot.loss == s.slot.loss && s'.world.channels == s.world.channels
    requires s.slot.flags.terminal ==> s'.slot.flags.terminal
    ensures SignalOk(s', next)
  {}

  /** Nothing about children, reservations or channels changed, and no life came back. */
  predicate Undisturbed(s: State, s': State) {
    && s'.children == s.children && s'.slot.platform == s.slot.platform && s'.slot.held == s.slot.held
    && s'.used == s.used && s.world.accepted <= s'.world.accepted && s'.world.channels == s.world.channels
    && s'.slot.current.id == s.slot.current.id && s'.slot.loss == s.slot.loss
    && s'.who.registrar == s.who.registrar && s'.who.lossOwner == s.who.lossOwner
    && (s.slot.flags.terminal ==> s'.slot.flags.terminal)
  }

  lemma StartUndisturbed(s: State, t: nat, p: nat, e: Step, s': State)
    requires At(s, t).pc.Idle? && StartNext(s, t, p, e) == Some(s')
    ensures Undisturbed(s, s')
  {}

  lemma StartMoves(s: State, t: nat, p: nat, e: Step, s': State)
    requires At(s, t).pc.Idle? && StartNext(s, t, p, e) == Some(s')
    ensures Moved(s, t, s') && !AtRevision(At(s', t).pc) && !AtLoss(At(s', t).pc)
    ensures !e.InvalidationArrives? ==> s'.slot.current == s.slot.current && s'.who.sinker == s.who.sinker
    ensures !e.InvalidationArrives? ==> !At(s', t).pc.Sinking?
  {}

  lemma HoldUndisturbed(s: State, t: nat, p: nat, op: Op, e: Step, s': State)
    requires At(s, t) == Thread(p, Holding(op)) && !op.CloseAnswered? && !op.Registering? && !op.Finalizing?
    requires HoldNext(s, t, p, op, e) == Some(s')
    ensures Undisturbed(s, s') && Moved(s, t, s') && !AtRevision(At(s', t).pc) && !AtLoss(At(s', t).pc)
  {}

  lemma ChildUndisturbed(s: State, s': State)
    requires ChildOk(s) && Undisturbed(s, s')
    ensures ChildOk(s')
  {
    ChildFrame(s, s');
  }

  /** A child new to the slot is adopted in the place it will hold. */
  lemma AdoptKeepsChild(s: State, ref: nat, c: Child, s': State)
    requires ChildOk(s) && FreshChild(s, ref) && s'.children == s.children[ref := c]
    requires s'.slot == Adopt(s.slot, c.kind, ref) && s'.used == s.used && s'.world == s.world
    requires !c.closed && Mine(s.slot, c.platform) && c.platform in s.used && HeldRef(s.slot.held, c.kind) == 0
    requires c.kind == Revision ==> s.slot.current.id != 0
    requires c.kind == Publication ==> s.slot.held.revision == c.parent != 0
    requires c.kind == Transport ==>
               c.signal == s.slot.loss.id != 0 && c.epoch == s.slot.loss.epoch && c.attempt == s.slot.loss.attempt
    ensures ChildOk(s')
  {
    forall k | k in s'.children && k != ref
      ensures if s'.children[k].closed then ClosedOk(s', k) else OpenOk(s', k)
    {
      assert s.children[k].closed ==> ClosedOk(s, k);
      assert !s.children[k].closed ==> OpenOk(s, k);
    }
  }

  /** A successful close leaves the other children as they were; a revision takes the slot's life. */
  lemma OtherChildStays(s: State, t: nat, p: nat, c: nat, k: nat, s': State)
    requires c in s.children && CloseSucceeds(s.slot, p, s.children[c].kind, true)
    requires CommitNext(s, t, p, c, true) == s'
    requires ChildOk(s) && !s.children[c].closed && k in s.children && k != c
    ensures s'.children[k] == s.children[k]
    ensures if s'.children[k].closed then ClosedOk(s', k) else OpenOk(s', k)
  {
    assert OpenOk(s, c);
    assert s.children[k].closed ==> ClosedOk(s, k);
    assert !s.children[k].closed ==> OpenOk(s, k);
  }

  /** The child itself ends accepted, and a transport ends with its channel closed once. */
  lemma ClosedNow(s: State, t: nat, p: nat, c: nat, next: nat, s': State)
    requires c in s.children && CloseSucceeds(s.slot, p, s.children[c].kind, true)
    requires CommitNext(s, t, p, c, true) == s'
    requires SignalOk(s, next) && ChildOk(s) && !s.children[c].closed && Key(s.children[c]) in s.world.accepted
    ensures s'.children[c] == s.children[c].(closed := true) && ClosedOk(s', c)
  {
    assert OpenOk(s, c);
  }

  // ----- every step keeps every part -----

  lemma FreeKeepsFlags(s: State, e: FreeStep, next: nat, s': State)
    requires FreeNext(s, e) == Some(s')
    requires FlagsOk(s) && BusyOk(s) && SignalOk(s, next) && ReserveOk(s)
    ensures FlagsOk(s')
  {}

  lemma FreeKeepsBusy(s: State, e: FreeStep, s': State)
    requires FreeNext(s, e) == Some(s')
    requires FlagsOk(s) && BusyOk(s)
    ensures BusyOk(s')
  {}

  lemma FreeKeepsWork(s: State, e: FreeStep, next: nat, s': State)
    requires FreeNext(s, e) == Some(s')
    requires BusyOk(s) && WorkOk(s, next)
    ensures WorkOk(s', next)
  {}

  lemma FreeKeepsSignal(s: State, e: FreeStep, next: nat, s': State)
    requires FreeNext(s, e) == Some(s')
    requires FlagsOk(s) && BusyOk(s) && SignalOk(s, next)
    ensures SignalOk(s', next)
  {}

  lemma FreeKeepsReserve(s: State, e: FreeStep, next: nat, s': State)
    requires FreeNext(s, e) == Some(s')
    requires FlagsOk(s) && BusyOk(s) && SignalOk(s, next) && ReserveOk(s)
    ensures ReserveOk(s')
  {}

  lemma FreeKeepsChild(s: State, e: FreeStep, next: nat, s': State)
    requires FreeNext(s, e) == Some(s')
    requires FlagsOk(s) && SignalOk(s, next) && ChildOk(s)
    ensures ChildOk(s')
  {
    if e.FailPlatform? || e.HookFires? || e.HookReturns? {
      ChildUndisturbed(s, s');
    } else if e.LossArrives? {
      ChildFrame(s, s');
    }
  }

  lemma FreeKeepsTarget(s: State, e: FreeStep, s': State)
    requires FreeNext(s, e) == Some(s')
    requires FlagsOk(s) && BusyOk(s) && ChildOk(s) && TargetOk(s)
    ensures TargetOk(s')
  {}

  lemma ReserveKeepsFlags(s: State, t: nat, p: nat, e: Step, next: nat, s': State)
    requires At(s, t).pc.Idle? && ReserveNext(s, t, p, e, next) == Some(s')
    requires FlagsOk(s) && BusyOk(s) && SignalOk(s, next) && ReserveOk(s)
    ensures FlagsOk(s')
  {}

  lemma ReserveKeepsBusy(s: State, t: nat, p: nat, e: Step, next: nat, s': State)
    requires At(s, t).pc.Idle? && ReserveNext(s, t, p, e, next) == Some(s')
    requires FlagsOk(s) && BusyOk(s)
    ensures BusyOk(s')
  {}

  lemma ReserveKeepsWork(s: State, t: nat, p: nat, e: Step, next: nat, s': State)
    requires At(s, t).pc.Idle? && ReserveNext(s, t, p, e, next) == Some(s')
    requires BusyOk(s) && WorkOk(s, next)
    ensures WorkOk(s', next + Taken(s, t, p, e, next))
  {}

  lemma ReserveKeepsSignal(s: State, t: nat, p: nat, e: Step, next: nat, s': State)
    requires At(s, t).pc.Idle? && ReserveNext(s, t, p, e, next) == Some(s')
    requires FlagsOk(s) && SignalOk(s, next)
    ensures SignalOk(s', next + Taken(s, t, p, e, next))
  {}

  lemma ReserveKeepsReserve(s: State, t: nat, p: nat, e: Step, next: nat, s': State)
    requires At(s, t).pc.Idle? && ReserveNext(s, t, p, e, next) == Some(s')
    requires FlagsOk(s) && ReserveOk(s) && ChildOk(s)
    ensures ReserveOk(s')
  {}

  lemma ReserveKeepsChild(s: State, t: nat, p: nat, e: Step, next: nat, s': State)
    requires At(s, t).pc.Idle? && ReserveNext(s, t, p, e, next) == Some(s')
    requires SignalOk(s, next) && ChildOk(s)
    ensures ChildOk(s')
  {
    ChildFrame(s, s');
  }

  lemma ReserveKeepsTarget(s: State, t: nat, p: nat, e: Step, next: nat, s': State)
    requires At(s, t).pc.Idle? && ReserveNext(s, t, p, e, next) == Some(s')
    requires FlagsOk(s) && BusyOk(s) && ChildOk(s) && TargetOk(s)
    ensures TargetOk(s')
  {}

  lemma StartKeepsFlags(s: State, t: nat, p: nat, e: Step, next: nat, s': State)
    requires At(s, t).pc.Idle? && StartNext(s, t, p, e) == Some(s')
    requires FlagsOk(s) && BusyOk(s) && SignalOk(s, next) && ReserveOk(s)
    ensures FlagsOk(s')
  {}

  lemma StartKeepsBusy(s: State, t: nat, p: nat, e: Step, s': State)
    requires At(s, t).pc.Idle? && StartNext(s, t, p, e) == Some(s')
    requires FlagsOk(s) && BusyOk(s)
    ensures BusyOk(s')
  {}

  lemma StartKeepsWork(s: State, t: nat, p: nat, e: Step, next: nat, s': State)
    requires At(s, t).pc.Idle? && StartNext(s, t, p, e) == Some(s')
    requires BusyOk(s) && WorkOk(s, next)
    ensures WorkOk(s', next)
  {}

  lemma StartKeepsSignal(s: State, t: nat, p: nat, e: Step, next: nat, s': State)
    requires At(s, t).pc.Idle? && StartNext(s, t, p, e) == Some(s')
    requires FlagsOk(s) && SignalOk(s, next)
    ensures SignalOk(s', next)
  {
    if !e.InvalidationArrives? {
      StartUndisturbed(s, t, p, e, s');
      StartMoves(s, t, p, e, s');
      SignalFrame(s, t, next, s');
    }
  }

  lemma StartKeepsReserve(s: State, t: nat, p: nat, e: Step, s': State)
    requires At(s, t).pc.Idle? && StartNext(s, t, p, e) == Some(s')
    requires FlagsOk(s) && ReserveOk(s)
    ensures ReserveOk(s')
  {
    StartUndisturbed(s, t, p, e, s');
    StartMoves(s, t, p, e, s');
    ReserveFrame(s, t, s');
  }

  lemma StartKeepsChild(s: State, t: nat, p: nat, e: Step, next: nat, s': State)
    requires At(s, t).pc.Idle? && StartNext(s, t, p, e) == Some(s')
    requires FlagsOk(s) && SignalOk(s, next) && ChildOk(s)
    ensures ChildOk(s')
  {
    StartUndisturbed(s, t, p, e, s');
    ChildUndisturbed(s, s');
  }

  lemma StartKeepsTarget(s: State, t: nat, p: nat, e: Step, s': State)
    requires At(s, t).pc.Idle? && StartNext(s, t, p, e) == Some(s')
    requires ChildOk(s) && TargetOk(s)
    ensures TargetOk(s')
  {}

  lemma WaitKeepsFlags(s: State, t: nat, p: nat, pc: Pc, e: Step, next: nat, s': State)
    requires At(s, t) == Thread(p, pc) && !pc.Holding? && !pc.Idle? && WaitNext(s, t, p, pc, e) == Some(s')
    requires FlagsOk(s) && BusyOk(s) && SignalOk(s, next) && ReserveOk(s)
    ensures FlagsOk(s')
  {}

  lemma WaitKeepsBusy(s: State, t: nat, p: nat, pc: Pc, e: Step, s': State)
    requires At(s, t) == Thread(p, pc) && !pc.Holding? && !pc.Idle? && WaitNext(s, t, p, pc, e) == Some(s')
    requires FlagsOk(s) && BusyOk(s)
    ensures BusyOk(s')
  {}

  lemma WaitKeepsWork(s: State, t: nat, p: nat, pc: Pc, e: Step, next: nat, s': State)
    requires At(s, t) == Thread(p, pc) && !pc.Holding? && !pc.Idle? && WaitNext(s, t, p, pc, e) == Some(s')
    requires BusyOk(s) && WorkOk(s, next)
    ensures WorkOk(s', next)
  {}

  lemma WaitKeepsSignal(s: State, t: nat, p: nat, pc: Pc, e: Step, next: nat, s': State)
    requires At(s, t) == Thread(p, pc) && !pc.Holding? && !pc.Idle? && WaitNext(s, t, p, pc, e) == Some(s')
    requires FlagsOk(s) && SignalOk(s, next)
    ensures SignalOk(s', next)
  {
    if !pc.Sinking? {
      SignalFrame(s, t, next, s');
    }
  }

  lemma WaitKeepsReserve(s: State, t: nat, p: nat, pc: Pc, e: Step, s': State)
    requires At(s, t) == Thread(p, pc) && !pc.Holding? && !pc.Idle? && WaitNext(s, t, p, pc, e) == Some(s')
    requires FlagsOk(s) && ReserveOk(s)
    ensures ReserveOk(s')
  {
    if pc.LossReserved? {
      LossMoves(s, t, s');
    } else if !pc.RevisionReserved? {
      ReserveFrame(s, t, s');
    }
  }

  lemma WaitKeepsChild(s: State, t: nat, p: nat, pc: Pc, e: Step, s': State)
    requires At(s, t) == Thread(p, pc) && !pc.Holding? && !pc.Idle? && WaitNext(s, t, p, pc, e) == Some(s')
    requires FlagsOk(s) && ChildOk(s)
    ensures ChildOk(s')
  {
    ChildFrame(s, s');
  }

  lemma WaitKeepsTarget(s: State, t: nat, p: nat, pc: Pc, e: Step, s': State)
    requires At(s, t) == Thread(p, pc) && !pc.Holding? && !pc.Idle? && WaitNext(s, t, p, pc, e) == Some(s')
    requires TargetOk(s)
    ensures TargetOk(s')
  {}

  lemma CallKeepsFlags(s: State, t: nat, p: nat, op: Op, e: Step, next: nat, s': State)
    requires At(s, t) == Thread(p, Holding(op)) && CallNext(s, t, p, op, e, next) == Some(s')
    requires FlagsOk(s) && BusyOk(s) && SignalOk(s, next) && ReserveOk(s)
    ensures FlagsOk(s')
  {}

  lemma CallKeepsBusy(s: State, t: nat, p: nat, op: Op, e: Step, next: nat, s': State)
    requires At(s, t) == Thread(p, Holding(op)) && CallNext(s, t, p, op, e, next) == Some(s')
    requires FlagsOk(s) && BusyOk(s)
    ensures BusyOk(s')
  {}

  lemma CallKeepsWork(s: State, t: nat, p: nat, op: Op, e: Step, next: nat, s': State)
    requires At(s, t) == Thread(p, Holding(op)) && CallNext(s, t, p, op, e, next) == Some(s')
    requires BusyOk(s) && WorkOk(s, next)
    ensures WorkOk(s', next + Taken(s, t, p, e, next))
  {}

  lemma CallKeepsSignal(s: State, t: nat, p: nat, op: Op, e: Step, next: nat, s': State)
    requires At(s, t) == Thread(p, Holding(op)) && CallNext(s, t, p, op, e, next) == Some(s')
    requires BusyOk(s) && SignalOk(s, next)
    ensures SignalOk(s', next + Taken(s, t, p, e, next))
  {
    SignalFrame(s, t, next, s');
  }

  lemma CallKeepsReserve(s: State, t: nat, p: nat, op: Op, e: Step, next: nat, s': State)
    requires At(s, t) == Thread(p, Holding(op)) && CallNext(s, t, p, op, e, next) == Some(s')
    requires BusyOk(s) && ReserveOk(s)
    ensures ReserveOk(s')
  {
    if AtLoss(Holding(op)) {
      LossMoves(s, t, s');
    } else {
      ReserveFrame(s, t, s');
    }
  }

  lemma CallKeepsChild(s: State, t: nat, p: nat, op: Op, e: Step, next: nat, s': State)
    requires At(s, t) == Thread(p, Holding(op)) && CallNext(s, t, p, op, e, next) == Some(s')
    requires FlagsOk(s) && ChildOk(s)
    ensures ChildOk(s')
  {
    ChildFrame(s, s');
  }

  lemma CallKeepsTarget(s: State, t: nat, p: nat, op: Op, e: Step, next: nat, s': State)
    requires At(s, t) == Thread(p, Holding(op)) && CallNext(s, t, p, op, e, next) == Some(s')
    requires FlagsOk(s) && BusyOk(s) && ChildOk(s) && TargetOk(s)
    ensures TargetOk(s')
  {}

  lemma HoldKeepsFlags(s: State, t: nat, p: nat, op: Op, e: Step, next: nat, s': State)
    requires At(s, t) == Thread(p, Holding(op)) && !op.CloseAnswered? && HoldNext(s, t, p, op, e) == Some(s')
    requires FlagsOk(s) && BusyOk(s) && SignalOk(s, next) && ReserveOk(s)
    ensures FlagsOk(s')
  {}

  lemma HoldKeepsBusy(s: State, t: nat, p: nat, op: Op, e: Step, s': State)
    requires At(s, t) == Thread(p, Holding(op)) && !op.CloseAnswered? && HoldNext(s, t, p, op, e) == Some(s')
    requires FlagsOk(s) && BusyOk(s)
    ensures BusyOk(s')
  {}

  lemma HoldKeepsWork(s: State, t: nat, p: nat, op: Op, e: Step, next: nat, s': State)
    requires At(s, t) == Thread(p, Holding(op)) && !op.CloseAnswered? && HoldNext(s, t, p, op, e) == Some(s')
    requires BusyOk(s) && WorkOk(s, next)
    ensures WorkOk(s', next)
  {}

  lemma HoldKeepsSignal(s: State, t: nat, p: nat, op: Op, e: Step, next: nat, s': State)
    requires At(s, t) == Thread(p, Holding(op)) && !op.CloseAnswered? && HoldNext(s, t, p, op, e) == Some(s')
    requires FlagsOk(s) && BusyOk(s) && SignalOk(s, next)
    ensures SignalOk(s', next)
  {
    if !e.Finalized? {
      SignalFrame(s, t, next, s');
    }
  }

  lemma HoldKeepsReserve(s: State, t: nat, p: nat, op: Op, e: Step, s': State)
    requires At(s, t) == Thread(p, Holding(op)) && !op.CloseAnswered? && HoldNext(s, t, p, op, e) == Some(s')
    requires FlagsOk(s) && BusyOk(s) && ReserveOk(s)
    ensures ReserveOk(s')
  {
    if !op.Registering? && !op.Finalizing? {
      HoldUndisturbed(s, t, p, op, e, s');
      ReserveFrame(s, t, s');
    }
  }

  lemma HoldKeepsChild(s: State, t: nat, p: nat, op: Op, e: Step, next: nat, s': State)
    requires At(s, t) == Thread(p, Holding(op)) && !op.CloseAnswered? && HoldNext(s, t, p, op, e) == Some(s')
    requires FlagsOk(s) && BusyOk(s) && SignalOk(s, next) && ChildOk(s)
    ensures ChildOk(s')
  {
    if op.Registering? {
      ChildFrame(s, s');
    } else if !op.Finalizing? {
      HoldUndisturbed(s, t, p, op, e, s');
      ChildUndisturbed(s, s');
    }
  }

  lemma HoldKeepsTarget(s: State, t: nat, p: nat, op: Op, e: Step, s': State)
    requires At(s, t) == Thread(p, Holding(op)) && !op.CloseAnswered? && HoldNext(s, t, p, op, e) == Some(s')
    requires FlagsOk(s) && BusyOk(s) && ChildOk(s) && TargetOk(s)
    ensures TargetOk(s')
  {}

  lemma GrantKeepsFlags(s: State, t: nat, p: nat, op: Op, ref: nat, id: nat, next: nat, s': State)
    requires At(s, t) == Thread(p, Holding(op)) && GrantNext(s, t, p, op, ref, id) == Some(s')
    requires FlagsOk(s) && BusyOk(s) && SignalOk(s, next) && ReserveOk(s)
    ensures FlagsOk(s')
  {}

  lemma GrantKeepsBusy(s: State, t: nat, p: nat, op: Op, ref: nat, id: nat, s': State)
    requires At(s, t) == Thread(p, Holding(op)) && GrantNext(s, t, p, op, ref, id) == Some(s')
    requires FlagsOk(s) && BusyOk(s)
    ensures BusyOk(s')
  {}

  lemma GrantKeepsWork(s: State, t: nat, p: nat, op: Op, ref: nat, id: nat, next: nat, s': State)
    requires At(s, t) == Thread(p, Holding(op)) && GrantNext(s, t, p, op, ref, id) == Some(s')
    requires BusyOk(s) && WorkOk(s, next)
    ensures WorkOk(s', next)
  {}

  lemma GrantKeepsSignal(s: State, t: nat, p: nat, op: Op, ref: nat, id: nat, next: nat, s': State)
    requires At(s, t) == Thread(p, Holding(op)) && GrantNext(s, t, p, op, ref, id) == Some(s')
    requires FlagsOk(s) && BusyOk(s) && SignalOk(s, next)
    ensures SignalOk(s', next)
  {}

  lemma GrantKeepsReserve(s: State, t: nat, p: nat, op: Op, ref: nat, id: nat, next: nat, s': State)
    requires At(s, t) == Thread(p, Holding(op)) && GrantNext(s, t, p, op, ref, id) == Some(s')
    requires FlagsOk(s) && BusyOk(s) && SignalOk(s, next) && ReserveOk(s)
    ensures ReserveOk(s')
  {}

  lemma GrantKeepsChild(s: State, t: nat, p: nat, op: Op, ref: nat, id: nat, s': State)
    requires At(s, t) == Thread(p, Holding(op)) && GrantNext(s, t, p, op, ref, id) == Some(s')
    requires FlagsOk(s) && BusyOk(s) && ReserveOk(s) && ChildOk(s) && TargetOk(s)
    ensures ChildOk(s')
  {
    var c := s'.children[ref];
    if c.kind == Publication {
      assert PointOk(s.children, s.world.accepted, s.slot.held, s.threads[t]);
    } else {
      assert AtRevision(Holding(op)) || AtLoss(Holding(op));
    }
    AdoptKeepsChild(s, ref, c, s');
  }

  lemma GrantKeepsTarget(s: State, t: nat, p: nat, op: Op, ref: nat, id: nat, s': State)
    requires At(s, t) == Thread(p, Holding(op)) && GrantNext(s, t, p, op, ref, id) == Some(s')
    requires FlagsOk(s) && BusyOk(s) && ChildOk(s) && TargetOk(s)
    ensures TargetOk(s')
  {}

  lemma CommitKeepsFlags(s: State, t: nat, p: nat, c: nat, accepted: bool, next: nat, s': State)
    requires At(s, t) == Thread(p, Holding(CloseAnswered(c, accepted))) && c in s.children
             && CommitNext(s, t, p, c, accepted) == s'
    requires FlagsOk(s) && BusyOk(s) && SignalOk(s, next) && ReserveOk(s)
    ensures FlagsOk(s')
  {}

  lemma CommitKeepsBusy(s: State, t: nat, p: nat, c: nat, accepted: bool, s': State)
    requires At(s, t) == Thread(p, Holding(CloseAnswered(c, accepted))) && c in s.children
             && CommitNext(s, t, p, c, accepted) == s'
    requires FlagsOk(s) && BusyOk(s)
    ensures BusyOk(s')
  {}

  lemma CommitKeepsWork(s: State, t: nat, p: nat, c: nat, accepted: bool, next: nat, s': State)
    requires At(s, t) == Thread(p, Holding(CloseAnswered(c, accepted))) && c in s.children
             && CommitNext(s, t, p, c, accepted) == s'
    requires BusyOk(s) && WorkOk(s, next)
    ensures WorkOk(s', next)
  {}

  lemma CommitKeepsSignal(s: State, t: nat, p: nat, c: nat, accepted: bool, next: nat, s': State)
    requires At(s, t) == Thread(p, Holding(CloseAnswered(c, accepted))) && c in s.children
             && CommitNext(s, t, p, c, accepted) == s'
    requires BusyOk(s) && SignalOk(s, next) && ChildOk(s) && TargetOk(s)
    ensures SignalOk(s', next)
  {}

  lemma CommitKeepsReserve(s: State, t: nat, p: nat, c: nat, accepted: bool, s': State)
    requires At(s, t) == Thread(p, Holding(CloseAnswered(c, accepted))) && c in s.children
             && CommitNext(s, t, p, c, accepted) == s'
    requires BusyOk(s) && ReserveOk(s) && ChildOk(s) && TargetOk(s)
    ensures ReserveOk(s')
  {
    if CloseSucceeds(s.slot, p, s.children[c].kind, accepted) {
      assert OpenOk(s, c);
      ReserveFreed(s, t, s.children[c].kind, s');
    } else {
      ReserveFrame(s, t, s');
    }
  }

  lemma CommitKeepsChild(s: State, t: nat, p: nat, c: nat, accepted: bool, next: nat, s': State)
    requires At(s, t) == Thread(p, Holding(CloseAnswered(c, accepted))) && c in s.children
    requires CommitNext(s, t, p, c, accepted) == s'
    requires SignalOk(s, next) && ChildOk(s) && TargetOk(s)
    ensures ChildOk(s')
  {
    if CloseSucceeds(s.slot, p, s.children[c].kind, accepted) {
      assert PointOk(s.children, s.world.accepted, s.slot.held, s.threads[t]);
      CloseKeepsChild(s, t, p, c, next, s');
    } else {
      ChildFrame(s, s');
    }
  }

  lemma CloseKeepsChild(s: State, t: nat, p: nat, c: nat, next: nat, s': State)
    requires c in s.children && CloseSucceeds(s.slot, p, s.children[c].kind, true)
    requires CommitNext(s, t, p, c, true) == s'
    requires SignalOk(s, next) && ChildOk(s) && !s.children[c].closed && Key(s.children[c]) in s.world.accepted
    ensures ChildOk(s')
  {
    assert OpenOk(s, c);
    forall k | k in s'.children
      ensures if s'.children[k].closed then ClosedOk(s', k) else OpenOk(s', k)
    {
      if k == c {
        ClosedNow(s, t, p, c, next, s');
      } else {
        OtherChildStays(s, t, p, c, k, s');
      }
    }
    assert HeldOk(s, Revision) && HeldOk(s, Publication) && HeldOk(s, Transport);
  }

  lemma CommitKeepsTarget(s: State, t: nat, p: nat, c: nat, accepted: bool, s': State)
    requires At(s, t) == Thread(p, Holding(CloseAnswered(c, accepted))) && c in s.children
             && CommitNext(s, t, p, c, accepted) == s'
    requires FlagsOk(s) && BusyOk(s) && ChildOk(s) && TargetOk(s)
    ensures TargetOk(s')
  {}

  lemma FreeKeeps(s: State, e: FreeStep, next: nat, s': State)
    requires Inv(s, next) && FreeNext(s, e) == Some(s')
    ensures Inv(s', next)
  {
    FreeKeepsFlags(s, e, next, s');
    FreeKeepsBusy(s, e, s');
    FreeKeepsWork(s, e, next, s');
    FreeKeepsSignal(s, e, next, s');
    FreeKeepsReserve(s, e, next, s');
    FreeKeepsChild(s, e, next, s');
    FreeKeepsTarget(s, e, s');
  }

  lemma ReserveKeeps(s: State, t: nat, p: nat, e: Step, next: nat, s': State)
    requires Inv(s, next) && At(s, t).pc.Idle? && ReserveNext(s, t, p, e, next) == Some(s')
    ensures Inv(s', next + Taken(s, t, p, e, next))
  {
    ReserveKeepsFlags(s, t, p, e, next, s');
    ReserveKeepsBusy(s, t, p, e, next, s');
    ReserveKeepsWork(s, t, p, e, next, s');
    ReserveKeepsSignal(s, t, p, e, next, s');
    ReserveKeepsReserve(s, t, p, e, next, s');
    ReserveKeepsChild(s, t, p, e, next, s');
    ReserveKeepsTarget(s, t, p, e, next, s');
  }

  lemma StartKeeps(s: State, t: nat, p: nat, e: Step, next: nat, s': State)
    requires Inv(s, next) && At(s, t).pc.Idle? && StartNext(s, t, p, e) == Some(s')
    ensures Inv(s', next)
  {
    StartKeepsFlags(s, t, p, e, next, s');
    StartKeepsBusy(s, t, p, e, s');
    StartKeepsWork(s, t, p, e, next, s');
    StartKeepsSignal(s, t, p, e, next, s');
    StartKeepsReserve(s, t, p, e, s');
    StartKeepsChild(s, t, p, e, next, s');
    StartKeepsTarget(s, t, p, e, s');
  }

  lemma WaitKeeps(s: State, t: nat, p: nat, pc: Pc, e: Step, next: nat, s': State)
    requires Inv(s, next) && At(s, t) == Thread(p, pc) && !pc.Holding? && !pc.Idle?
    requires WaitNext(s, t, p, pc, e) == Some(s')
    ensures Inv(s', next)
  {
    WaitKeepsFlags(s, t, p, pc, e, next, s');
    WaitKeepsBusy(s, t, p, pc, e, s');
    WaitKeepsWork(s, t, p, pc, e, next, s');
    WaitKeepsSignal(s, t, p, pc, e, next, s');
    WaitKeepsReserve(s, t, p, pc, e, s');
    WaitKeepsChild(s, t, p, pc, e, s');
    WaitKeepsTarget(s, t, p, pc, e, s');
  }

  lemma CallKeeps(s: State, t: nat, p: nat, op: Op, e: Step, next: nat, s': State)
    requires Inv(s, next) && At(s, t) == Thread(p, Holding(op)) && CallNext(s, t, p, op, e, next) == Some(s')
    ensures Inv(s', next + Taken(s, t, p, e, next))
  {
    CallKeepsFlags(s, t, p, op, e, next, s');
    CallKeepsBusy(s, t, p, op, e, next, s');
    CallKeepsWork(s, t, p, op, e, next, s');
    CallKeepsSignal(s, t, p, op, e, next, s');
    CallKeepsReserve(s, t, p, op, e, next, s');
    CallKeepsChild(s, t, p, op, e, next, s');
    CallKeepsTarget(s, t, p, op, e, next, s');
  }

  lemma GrantKeeps(s: State, t: nat, p: nat, op: Op, ref: nat, id: nat, next: nat, s': State)
    requires Inv(s, next) && At(s, t) == Thread(p, Holding(op)) && GrantNext(s, t, p, op, ref, id) == Some(s')
    ensures Inv(s', next)
  {
    GrantKeepsFlags(s, t, p, op, ref, id, next, s');
    GrantKeepsBusy(s, t, p, op, ref, id, s');
    GrantKeepsWork(s, t, p, op, ref, id, next, s');
    GrantKeepsSignal(s, t, p, op, ref, id, next, s');
    GrantKeepsReserve(s, t, p, op, ref, id, next, s');
    GrantKeepsChild(s, t, p, op, ref, id, s');
    GrantKeepsTarget(s, t, p, op, ref, id, s');
  }

  lemma HoldKeeps(s: State, t: nat, p: nat, op: Op, e: Step, next: nat, s': State)
    requires Inv(s, next) && At(s, t) == Thread(p, Holding(op)) && HoldNext(s, t, p, op, e) == Some(s')
    ensures Inv(s', next)
  {
    if op.CloseAnswered? {
      CommitKeepsFlags(s, t, p, op.child, op.accepted, next, s');
      CommitKeepsBusy(s, t, p, op.child, op.accepted, s');
      CommitKeepsWork(s, t, p, op.child, op.accepted, next, s');
      CommitKeepsSignal(s, t, p, op.child, op.accepted, next, s');
      CommitKeepsReserve(s, t, p, op.child, op.accepted, s');
      CommitKeepsChild(s, t, p, op.child, op.accepted, next, s');
      CommitKeepsTarget(s, t, p, op.child, op.accepted, s');
    } else {
      HoldKeepsFlags(s, t, p, op, e, next, s');
      HoldKeepsBusy(s, t, p, op, e, s');
      HoldKeepsWork(s, t, p, op, e, next, s');
      HoldKeepsSignal(s, t, p, op, e, next, s');
      HoldKeepsReserve(s, t, p, op, e, s');
      HoldKeepsChild(s, t, p, op, e, next, s');
      HoldKeepsTarget(s, t, p, op, e, s');
    }
  }

  lemma HoldingKeeps(s: State, t: nat, p: nat, op: Op, e: Step, next: nat, s': State)
    requires Inv(s, next) && At(s, t) == Thread(p, Holding(op)) && ThreadNext(s, t, p, e, next) == Some(s')
    ensures Inv(s', next + Taken(s, t, p, e, next))
  {
    if e.ChildGranted? {
      GrantKeeps(s, t, p, op, e.ref, e.id, next, s');
    } else if InCall(op) || op.CallAdmitted? {
      CallKeeps(s, t, p, op, e, next, s');
    } else {
      HoldKeeps(s, t, p, op, e, next, s');
    }
  }

  /** Every step of every thread keeps the invariant, with the counter moved by what it took. */
  lemma ThreadKeeps(s: State, t: nat, p: nat, e: Step, next: nat, s': State)
    requires Inv(s, next) && ThreadNext(s, t, p, e, next) == Some(s')
    ensures Inv(s', next + Taken(s, t, p, e, next))
  {
    var pc := At(s, t).pc;
    if pc.Holding? {
      HoldingKeeps(s, t, p, pc.op, e, next, s');
    } else if !pc.Idle? {
      WaitKeeps(s, t, p, pc, e, next, s');
    } else if e.ReserveCurrent? || e.ReserveTransport? {
      ReserveKeeps(s, t, p, e, next, s');
    } else {
      StartKeeps(s, t, p, e, next, s');
    }
  }
}

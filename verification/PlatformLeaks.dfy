/**
 Reservations of a signal entry that are never taken up: exactly when a registration leaves
 one behind, that it happens, and that the slot is then never recycled.
 */
module PlatformLeaks {
  import opened Options
  import opened PlatformSlot
  import opened PlatformProtocol
  import opened PlatformInvariants
  import opened PlatformTheorems

  /** The loss entry, or the revision entry, is reserved although no thread owns the reservation
      and nothing is registered on it. */
  predicate Leaked(s: State, loss: bool) {
    if loss then s.slot.loss.id != 0 && s.slot.held.transport == 0 && s.who.lossOwner.None?
    else s.slot.current.id != 0 && s.slot.held.revision == 0 && s.who.registrar.None?
  }

  /** Without the history: the entry is reserved, nothing is registered on it and no thread is on
      its way to register anything. */
  lemma LeakIsVisible(r: Registry, i: nat)
    requires Reachable(r) && i < |r.slots|
    ensures var s := r.slots[i];
            && (Leaked(s, true) <==> s.slot.loss.id != 0 && s.slot.held.transport == 0
                                     && forall t | t in s.threads :: !AtLoss(s.threads[t].pc))
            && (Leaked(s, false) <==> s.slot.current.id != 0 && s.slot.held.revision == 0
                                      && forall t | t in s.threads :: !AtRevision(s.threads[t].pc))
  {
    ReachableOk(r);
    var s := r.slots[i];
    assert Inv(s, r.next);
    if s.who.lossOwner.Some? {
      assert s.who.lossOwner.value in s.threads;
    }
    if s.who.registrar.Some? {
      assert s.who.registrar.value in s.threads;
    }
  }

  lemma RevisionLeaves(s: State, t: nat, p: nat, e: Step, next: nat, s': State)
    requires ReserveOk(s) && ThreadNext(s, t, p, e, next) == Some(s')
    requires AtRevision(At(s, t).pc) && !AtRevision(At(s', t).pc)
    ensures Leaked(s', false) <==> !e.ChildGranted?
    ensures !e.ChildGranted? <==> (e.BeginRegister? && !MayBegin(s.slot, p)) || e.NoChild?
    ensures s'.slot.current.id == s.slot.current.id != 0
  {
    assert s.who.registrar == Some(t);
  }

  /** Before the busy bit is held, and under it. */
  lemma WaitingTransportLeaves(s: State, t: nat, p: nat, pc: Pc, e: Step, s': State)
    requires ReserveOk(s) && At(s, t) == Thread(p, pc) && pc.LossReserved? && WaitNext(s, t, p, pc, e) == Some(s')
    requires !AtLoss(At(s', t).pc)
    ensures Leaked(s', true) && s'.slot.loss.id == s.slot.loss.id != 0
    ensures e.CallSkipped? || (e.BeginCall? && !MayBegin(s.slot, p))
  {
    assert s.who.lossOwner == Some(t);
  }

  lemma CallingTransportLeaves(s: State, t: nat, p: nat, op: Op, e: Step, next: nat, s': State)
    requires ReserveOk(s) && At(s, t) == Thread(p, Holding(op)) && AtLoss(Holding(op))
    requires !e.ChildGranted? && CallNext(s, t, p, op, e, next) == Some(s') && !AtLoss(At(s', t).pc)
    ensures Leaked(s', true) && s'.slot.loss.id == s.slot.loss.id != 0
    ensures e.CallSkipped? || (e.RegisterCall? && next == MAX_ID)
  {
    assert s.who.lossOwner == Some(t);
  }

  lemma TransportLeaves(s: State, t: nat, p: nat, e: Step, next: nat, s': State)
    requires ReserveOk(s) && ThreadNext(s, t, p, e, next) == Some(s')
    requires AtLoss(At(s, t).pc) && !AtLoss(At(s', t).pc)
    ensures Leaked(s', true) <==> !e.ChildGranted?
    ensures !e.ChildGranted? <==>
              || e.CallSkipped?
              || (e.BeginCall? && !MayBegin(s.slot, p))
              || (e.RegisterCall? && next == MAX_ID)
    ensures s'.slot.loss.id == s.slot.loss.id != 0
  {
    var pc := At(s, t).pc;
    if pc.LossReserved? {
      WaitingTransportLeaves(s, t, p, pc, e, s');
    } else if !e.ChildGranted? {
      CallingTransportLeaves(s, t, p, pc.op, e, next, s');
    } else {
      assert s.who.lossOwner == Some(t);
    }
  }

  /** A thread that gives up its revision reservation leaves the entry reserved exactly when no
      identifier was granted: the slot could not be begun, or the platform returned none. */
  lemma RevisionLeaksExactly(r: Registry, i: nat, t: nat, p: nat, e: Step, r': Registry)
    requires Reachable(r) && Next(r, Inside(i, t, p, e)) == Some(r')
    requires AtRevision(At(r.slots[i], t).pc) && !AtRevision(At(r'.slots[i], t).pc)
    ensures Leaked(r'.slots[i], false) <==> !e.ChildGranted?
    ensures !e.ChildGranted? <==> (e.BeginRegister? && !MayBegin(r.slots[i].slot, p)) || e.NoChild?
    ensures r'.slots[i].slot.current.id == r.slots[i].slot.current.id != 0
  {
    ReachableOk(r);
    assert Inv(r.slots[i], r.next);
    RevisionLeaves(r.slots[i], t, p, e, r.next, r'.slots[i]);
  }

  /** So with a transport reservation: its context was cancelled, the slot could not be begun, the
      counter was exhausted, or the call returned no identifier. */
  lemma TransportLeaksExactly(r: Registry, i: nat, t: nat, p: nat, e: Step, r': Registry)
    requires Reachable(r) && Next(r, Inside(i, t, p, e)) == Some(r')
    requires AtLoss(At(r.slots[i], t).pc) && !AtLoss(At(r'.slots[i], t).pc)
    ensures Leaked(r'.slots[i], true) <==> !e.ChildGranted?
    ensures !e.ChildGranted? <==>
              || e.CallSkipped?
              || (e.BeginCall? && !MayBegin(r.slots[i].slot, p))
              || (e.RegisterCall? && r.next == MAX_ID)
    ensures r'.slots[i].slot.loss.id == r.slots[i].slot.loss.id != 0
  {
    ReachableOk(r);
    assert Inv(r.slots[i], r.next);
    TransportLeaves(r.slots[i], t, p, e, r.next, r'.slots[i]);
  }

  lemma OpensFirst(p: Platform) returns (r: Registry)
    requires p.ref != 0 && p.owner != 0 && (p.kind == 1 || p.kind == 2)
    ensures Reachable(r) && |r.slots| == SLOTS && r.next == 0 && r.slots[0] == FreeNext(Init(), Open(p)).value
  {
    assert Run(Empty(), []) == Some(Empty());
    r := Next(Empty(), Outside(0, Open(p))).value;
    ReachableNext(Empty(), Outside(0, Open(p)), r);
  }

  /** A thread's step in slot zero of a reachable registry. */
  lemma Then(r: Registry, p: nat, e: Step) returns (r': Registry)
    requires Reachable(r) && |r.slots| == SLOTS && ThreadNext(r.slots[0], 0, p, e, r.next).Some?
    ensures Reachable(r') && |r'.slots| == SLOTS && r'.slots[0] == ThreadNext(r.slots[0], 0, p, e, r.next).value
    ensures r'.next == r.next + Taken(r.slots[0], 0, p, e, r.next)
  {
    r' := Next(r, Inside(0, 0, p, e)).value;
    ReachableNext(r, Inside(0, 0, p, e), r');
  }

  /** A platform opened, a revision entry reserved and its registration begun. */
  lemma Registers(kind: nat) returns (r: Registry)
    requires kind == 1 || kind == 2
    ensures Reachable(r) && |r.slots| == SLOTS && r.next == 1 && r.slots[0].children == map[]
    ensures At(r.slots[0], 0) == Thread(1, Holding(Registering(1)))
    ensures r.slots[0].slot == Slot(Platform(1, 1, kind), Flags(true, false, 0), Work(0, 0), Held(0, 0, 0),
                                    Signal(1, 1, 1, 0, false, false, false), NO_SIGNAL)
  {
    r := OpensFirst(Platform(1, 1, kind));
    r := Then(r, 1, ReserveCurrent(1));
    assert At(r.slots[0], 0) == Thread(1, RevisionReserved(1));
    r := Then(r, 1, BeginRegister);
  }

  lemma Ends(r: Registry) returns (r': Registry)
    requires Reachable(r) && |r.slots| == SLOTS && At(r.slots[0], 0) == Thread(1, Holding(Ending))
    ensures Reachable(r') && |r'.slots| == SLOTS && r'.next == r.next && At(r'.slots[0], 0).pc == Idle
    ensures r'.slots[0].slot == End(r.slots[0].slot, 1) && r'.slots[0].who == r.slots[0].who.(busy := None)
    ensures r'.slots[0].children == r.slots[0].children
  {
    r' := Then(r, 1, EndOperation);
  }

  /** A platform that returns no identifier leaves an idle, live slot that is never recycled. */
  lemma RevisionLeakHappens() returns (r: Registry)
    ensures Reachable(r) && |r.slots| == SLOTS && Leaked(r.slots[0], false)
    ensures r.slots[0].slot.platform.ref == 1 && Live(r.slots[0].slot) && !r.slots[0].slot.flags.busy
  {
    r := Registers(1);
    r := Then(r, 1, NoChild);
    r := Ends(r);
  }

  lemma Registered(kind: nat) returns (r: Registry)
    requires kind == 1 || kind == 2
    ensures Reachable(r) && |r.slots| == SLOTS && r.next == 1 && At(r.slots[0], 0).pc == Idle
    ensures r.slots[0].children == map[1 := Child(Revision, 1, 1, 0, 1, 0, 0, false)]
    ensures r.slots[0].slot == Slot(Platform(1, 1, kind), Flags(false, false, 0), Work(0, 0), Held(1, 0, 0),
                                    Signal(1, 1, 1, 0, false, false, false), NO_SIGNAL)
  {
    r := Registers(kind);
    r := Then(r, 1, ChildGranted(1, 1));
    r := Ends(r);
  }

  /** So does a context cancelled between the transport's reservation and its call. */
  lemma TransportLeakHappens() returns (r: Registry)
    ensures Reachable(r) && |r.slots| == SLOTS && Leaked(r.slots[0], true)
    ensures r.slots[0].slot.platform.ref == 1 && Live(r.slots[0].slot) && !r.slots[0].slot.flags.busy
  {
    r := Registered(2);
    r := Then(r, 1, ReserveTransport(3, 1, 0));
    assert At(r.slots[0], 0) == Thread(1, LossReserved(2));
    r := Then(r, 1, CallSkipped);
  }

  lemma HoldKeepsLeak(s: State, t: nat, p: nat, op: Op, e: Step, s': State, loss: bool)
    requires FlagsOk(s) && BusyOk(s) && ChildOk(s) && TargetOk(s) && Leaked(s, loss)
    requires At(s, t) == Thread(p, Holding(op)) && HoldNext(s, t, p, op, e) == Some(s')
    ensures Leaked(s', loss) && s'.slot.platform == s.slot.platform
  {
    assert HolderOp(s) == Some(op);
    if op.CloseAnswered? {
      assert PointOk(s.children, s.world.accepted, s.slot.held, s.threads[t]);
      assert !s.children[op.child].closed ==> OpenOk(s, op.child);
    }
  }

  lemma IdleKeepsLeak(s: State, t: nat, p: nat, e: Step, next: nat, s': State, loss: bool)
    requires Leaked(s, loss) && (ReserveNext(s, t, p, e, next) == Some(s') || StartNext(s, t, p, e) == Some(s'))
    ensures Leaked(s', loss) && s'.slot.platform == s.slot.platform
  {}

  lemma CallKeepsLeak(s: State, t: nat, p: nat, op: Op, e: Step, next: nat, s': State, loss: bool)
    requires Leaked(s, loss) && CallNext(s, t, p, op, e, next) == Some(s')
    ensures Leaked(s', loss) && s'.slot.platform == s.slot.platform
  {}

  lemma GrantKeepsLeak(s: State, t: nat, p: nat, op: Op, ref: nat, id: nat, s': State, loss: bool)
    requires ReserveOk(s) && Leaked(s, loss) && At(s, t) == Thread(p, Holding(op))
    requires GrantNext(s, t, p, op, ref, id) == Some(s')
    ensures Leaked(s', loss) && s'.slot.platform == s.slot.platform
  {
    assert (AtLoss(Holding(op)) ==> s.who.lossOwner == Some(t))
           && (AtRevision(Holding(op)) ==> s.who.registrar == Some(t));
  }

  lemma WaitKeepsLeak(s: State, t: nat, p: nat, pc: Pc, e: Step, s': State, loss: bool)
    requires Leaked(s, loss) && WaitNext(s, t, p, pc, e) == Some(s')
    ensures Leaked(s', loss) && s'.slot.platform == s.slot.platform
  {}

  lemma StepKeepsLeak(s: State, t: nat, p: nat, e: Step, next: nat, s': State, loss: bool)
    requires Inv(s, next) && Leaked(s, loss) && ThreadNext(s, t, p, e, next) == Some(s')
    ensures Leaked(s', loss) && s'.slot.platform == s.slot.platform
  {
    var pc := At(s, t).pc;
    if pc.Idle? {
      IdleKeepsLeak(s, t, p, e, next, s', loss);
    } else if !pc.Holding? {
      WaitKeepsLeak(s, t, p, pc, e, s', loss);
    } else if e.ChildGranted? {
      GrantKeepsLeak(s, t, p, pc.op, e.ref, e.id, s', loss);
    } else if InCall(pc.op) || pc.op.CallAdmitted? {
      CallKeepsLeak(s, t, p, pc.op, e, next, s', loss);
    } else {
      HoldKeepsLeak(s, t, p, pc.op, e, s', loss);
    }
  }

  lemma FreeKeepsLeak(s: State, e: FreeStep, s': State, loss: bool)
    requires FlagsOk(s) && Leaked(s, loss) && FreeNext(s, e) == Some(s')
    ensures Leaked(s', loss) && s'.slot.platform == s.slot.platform
  {}

  /** Such a slot is never recycled, in any continuation. */
  lemma {:induction false} LeakIsForever(r: Registry, run: seq<Action>, r': Registry, i: nat, loss: bool)
    requires RegistryOk(r) && Run(r, run) == Some(r') && i < SLOTS && Leaked(r.slots[i], loss)
    ensures |r'.slots| == SLOTS && Leaked(r'.slots[i], loss)
    ensures r'.slots[i].slot.platform == r.slots[i].slot.platform
    decreases run
  {
    if run != [] {
      var a := run[0];
      var r1 := Next(r, a).value;
      NextKeeps(r, a, r1);
      if a.slot == i {
        match a
        case Outside(_, e) => FreeKeepsLeak(r.slots[i], e, r1.slots[i], loss);
        case Inside(_, t, p, e) => StepKeepsLeak(r.slots[i], t, p, e, r.next, r1.slots[i], loss);
      }
      LeakIsForever(r1, run[1..], r', i, loss);
    }
  }
}

/**
 When a registered child is current or may be closed, said of the slot's fields alone, and
 runs in which each kind of child is registered and current.
 */
module PlatformCurrency {
  import opened Options
  import opened PlatformSlot
  import opened PlatformProtocol
  import opened PlatformInvariants
  import opened PlatformTheorems
  import opened PlatformLeaks

  /** An open lease is current exactly for its own epoch and attempt, in a slot neither terminal nor
      failed whose loss has not been delivered. */
  lemma LeaseIsCurrentExactlyWhen(r: Registry, i: nat, c: nat, epoch: nat, attempt: nat)
    requires Reachable(r) && i < |r.slots| && c in r.slots[i].children && r.slots[i].children[c].kind == Transport
    ensures var s := r.slots[i];
            LeaseCurrent(s, c, epoch, attempt) <==>
              && !s.children[c].closed && !s.slot.flags.terminal && s.slot.flags.failure == 0 && !s.slot.loss.fired
              && epoch == s.children[c].epoch && attempt == s.children[c].attempt
  {
    ReachableOk(r);
    assert Inv(r.slots[i], r.next);
    assert !r.slots[i].children[c].closed ==> OpenOk(r.slots[i], c);
  }

  /** An open publication passes both of its sections exactly in a slot neither terminal nor failed. */
  lemma PublicationIsCurrentExactlyWhen(r: Registry, i: nat, c: nat)
    requires Reachable(r) && i < |r.slots| && c in r.slots[i].children && r.slots[i].children[c].kind == Publication
    ensures var s := r.slots[i];
            var current := !s.children[c].closed && !s.slot.flags.terminal && s.slot.flags.failure == 0;
            (CurrencyStands(s, c) <==> current) && (CurrencyValid(s, c) <==> current)
  {
    ReachableOk(r);
    var s := r.slots[i];
    assert Inv(s, r.next);
    if !s.children[c].closed {
      assert OpenOk(s, c) && HeldOk(s, Revision);
    }
  }

  /** An open child passes the first section of its close: a lease always, a publication while its
      revision is still the slot's, a revision once no publication is left and no sink runs. */
  lemma MayCloseExactlyWhen(r: Registry, i: nat, c: nat)
    requires Reachable(r) && i < |r.slots| && c in r.slots[i].children && !r.slots[i].children[c].closed
    ensures var s := r.slots[i];
            CloseValid(s, c) <==>
              match s.children[c].kind
              case Transport => true
              case Publication => s.slot.held.revision == s.children[c].parent
              case Revision => s.slot.held.publication == 0 && !s.slot.current.running
  {
    ReachableOk(r);
    assert Inv(r.slots[i], r.next);
    assert OpenOk(r.slots[i], c);
  }

  /** What a grant registers: a child of the thread's platform under the granted identifier, a lease
      with the epoch and attempt of its reservation, a publication under its revision. */
  lemma GrantRegisters(r: Registry, i: nat, t: nat, p: nat, ref: nat, id: nat, r': Registry)
    requires Reachable(r) && Next(r, Inside(i, t, p, ChildGranted(ref, id))) == Some(r')
    ensures var s, s' := r.slots[i], r'.slots[i];
            && ref in s'.children && s'.children[ref].platform == p && s'.children[ref].id == id != 0
            && !s'.children[ref].closed && s'.slot.flags == s.slot.flags
            && (s'.children[ref].kind == Transport ==>
                  s'.children[ref].epoch == s.slot.loss.epoch && s'.children[ref].attempt == s.slot.loss.attempt
                  && s'.slot.loss == s.slot.loss)
            && (s'.children[ref].kind == Publication ==> s'.children[ref].parent == s.slot.held.revision)
  {
    ReachableOk(r);
    var s := r.slots[i];
    assert Inv(s, r.next);
    assert PointOk(s.children, s.world.accepted, s.slot.held, s.threads[t]);
  }

  /** So a newly granted lease or publication is current exactly in a live slot without a loss. */
  lemma GrantIsCurrentExactlyWhen(r: Registry, i: nat, t: nat, p: nat, ref: nat, id: nat, r': Registry)
    requires Reachable(r) && Next(r, Inside(i, t, p, ChildGranted(ref, id))) == Some(r')
    ensures var s, s' := r.slots[i], r'.slots[i];
            var live := !s.slot.flags.terminal && s.slot.flags.failure == 0;
            && ref in s'.children
            && (s'.children[ref].kind == Transport ==>
                  (LeaseCurrent(s', ref, s.slot.loss.epoch, s.slot.loss.attempt) <==> live && !s.slot.loss.fired))
            && (s'.children[ref].kind == Publication ==> (CurrencyStands(s', ref) <==> live))
  {
    GrantRegisters(r, i, t, p, ref, id, r');
    ReachableNext(r, Inside(i, t, p, ChildGranted(ref, id)), r');
    var s := r.slots[i];
    if r'.slots[i].children[ref].kind == Transport {
      LeaseIsCurrentExactlyWhen(r', i, ref, s.slot.loss.epoch, s.slot.loss.attempt);
    } else if r'.slots[i].children[ref].kind == Publication {
      PublicationIsCurrentExactlyWhen(r', i, ref);
    }
  }

  /** A production platform registers a socket lease, which is current for its epoch and attempt. */
  lemma SocketLeaseHappens() returns (r: Registry)
    ensures Reachable(r) && |r.slots| == SLOTS && r.slots[0].slot.platform.kind == 1
    ensures r.slots[0].slot.loss.kind == 2 && LeaseCurrent(r.slots[0], 2, 1, 5)
  {
    r := TransportCalls(1, 2, 5);
    r := GrantsTransport(r, 2, 5);
  }

  /** A maintenance platform registers a network lease. */
  lemma NetworkLeaseHappens() returns (r: Registry)
    ensures Reachable(r) && |r.slots| == SLOTS && r.slots[0].slot.platform.kind == 2
    ensures r.slots[0].slot.loss.kind == 3 && LeaseCurrent(r.slots[0], 2, 1, 0)
  {
    r := TransportCalls(2, 3, 0);
    r := GrantsTransport(r, 3, 0);
  }

  /** A revision is registered and a loss signal reserved. */
  lemma LossIsReserved(kind: nat, signalKind: nat, attempt: nat) returns (r: Registry)
    requires (kind == 1 && signalKind == 2 && attempt != 0) || (kind == 2 && signalKind == 3)
    ensures Reachable(r) && |r.slots| == SLOTS && 2 !in r.slots[0].children && r.next == 2
    ensures At(r.slots[0], 0) == Thread(1, LossReserved(2))
    ensures r.slots[0].slot == Slot(Platform(1, 1, kind), Flags(false, false, 0), Work(0, 0), Held(1, 0, 0),
                                    Signal(1, 1, 1, 0, false, false, false),
                                    Signal(2, signalKind, 1, attempt, true, false, false))
  {
    r := Registered(kind);
    r := Then(r, 1, ReserveTransport(signalKind, 1, attempt));
  }

  /** Its call is in flight. */
  lemma TransportCalls(kind: nat, signalKind: nat, attempt: nat) returns (r: Registry)
    requires (kind == 1 && signalKind == 2 && attempt != 0) || (kind == 2 && signalKind == 3)
    ensures Reachable(r) && |r.slots| == SLOTS && 2 !in r.slots[0].children
    ensures At(r.slots[0], 0) == Thread(1, Holding(Calling(TransportCall(2), 3)))
    ensures var s := r.slots[0].slot;
            && s.platform == Platform(1, 1, kind) && s.flags == Flags(true, false, 0)
            && s.loss == Signal(2, signalKind, 1, attempt, true, false, false)
  {
    r := LossIsReserved(kind, signalKind, attempt);
    r := Then(r, 1, BeginCall(TransportCall(2)));
    assert At(r.slots[0], 0) == Thread(1, Holding(CallAdmitted(TransportCall(2))));
    r := Then(r, 1, RegisterCall);
  }

  lemma GrantsTransport(r: Registry, signalKind: nat, attempt: nat) returns (r': Registry)
    requires Reachable(r) && |r.slots| == SLOTS && 2 !in r.slots[0].children
    requires At(r.slots[0], 0) == Thread(1, Holding(Calling(TransportCall(2), 3)))
    requires r.slots[0].slot.flags == Flags(true, false, 0)
    requires r.slots[0].slot.loss == Signal(2, signalKind, 1, attempt, true, false, false)
    ensures Reachable(r') && |r'.slots| == SLOTS && LeaseCurrent(r'.slots[0], 2, 1, attempt)
    ensures r'.slots[0].slot.platform == r.slots[0].slot.platform && r'.slots[0].slot.loss == r.slots[0].slot.loss
  {
    r' := Next(r, Inside(0, 0, 1, ChildGranted(2, 7))).value;
    ReachableNext(r, Inside(0, 0, 1, ChildGranted(2, 7)), r');
    GrantIsCurrentExactlyWhen(r, 0, 0, 1, 2, 7, r');
  }

  /** A publication's call is in flight under a registered revision. */
  lemma PublicationCalls() returns (r: Registry)
    ensures Reachable(r) && |r.slots| == SLOTS && r.next == 2
    ensures At(r.slots[0], 0) == Thread(1, Holding(Calling(PublicationCall(1), 2)))
    ensures r.slots[0].children == map[1 := Child(Revision, 1, 1, 0, 1, 0, 0, false)]
    ensures r.slots[0].slot == Slot(Platform(1, 1, 2), Flags(true, false, 0), Work(0, 2), Held(1, 0, 0),
                                    Signal(1, 1, 1, 0, false, false, false), NO_SIGNAL)
  {
    r := Registered(2);
    r := Then(r, 1, BeginCall(PublicationCall(1)));
    assert At(r.slots[0], 0) == Thread(1, Holding(CallAdmitted(PublicationCall(1))));
    r := Then(r, 1, RegisterCall);
  }

  /** The publication is then acquired, and is current. */
  lemma PublicationHappens() returns (r: Registry)
    ensures Reachable(r) && |r.slots| == SLOTS && 2 in r.slots[0].children && CurrencyStands(r.slots[0], 2)
  {
    var r1 := PublicationCalls();
    r1 := Then(r1, 1, Acquire);
    assert At(r1.slots[0], 0) == Thread(1, Holding(Acquiring(1, 2))) && 2 !in r1.slots[0].children;
    r := Next(r1, Inside(0, 0, 1, ChildGranted(2, 7))).value;
    ReachableNext(r1, Inside(0, 0, 1, ChildGranted(2, 7)), r);
    GrantIsCurrentExactlyWhen(r1, 0, 0, 1, 2, 7, r);
  }
}

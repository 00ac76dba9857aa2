/**
 The whole registry: sixty-four slots and one identifier counter, and what holds of it
 over every run.
 */
module PlatformTheorems {
  import opened Options
  import opened PlatformSlot
  import opened PlatformProtocol
  import opened PlatformInvariants

  const SLOTS: nat := 64

  datatype Registry = Registry(next: nat, slots: seq<State>)

  function Empty(): Registry { Registry(0, seq(SLOTS, i => Init())) }

  /** A step happens in one slot; only thread steps take identifiers. */
  datatype Action = Outside(slot: nat, free: FreeStep) | Inside(slot: nat, thread: nat, platform: nat, step: Step)

  /** newAndroidPlatformV1 admits an owner once, in the first free slot, as a new object. */
  predicate MayOpen(r: Registry, i: nat, p: Platform) {
    && (p.kind == 1 || p.kind == 2)
    && (forall j | 0 <= j < |r.slots| ::
          && r.slots[j].slot.platform.owner != p.owner && p.ref !in r.slots[j].used
          && (j < i ==> r.slots[j].slot.platform.ref != 0))
  }

  function Next(r: Registry, a: Action): Option<Registry> {
    if a.slot >= |r.slots| then None
    else
      var s := r.slots[a.slot];
      match a
      case Outside(i, e) =>
        if e.Open? && !MayOpen(r, i, e.platform) then None
        else if FreeNext(s, e).None? then None
        else Some(r.(slots := r.slots[i := FreeNext(s, e).value]))
      case Inside(i, t, p, e) =>
        if ThreadNext(s, t, p, e, r.next).None? then None
        else Some(Registry(r.next + Taken(s, t, p, e, r.next), r.slots[i := ThreadNext(s, t, p, e, r.next).value]))
  }

  function Run(r: Registry, run: seq<Action>): Option<Registry>
    decreases run
  {
    if run == [] then Some(r)
    else
      var r1 := Next(r, run[0]);
      if r1.None? then None else Run(r1.value, run[1..])
  }

  /** Two platforms never share an owner, and no reference is ever handed out twice. */
  predicate Apart(s: State, u: State) {
    && s.used !! u.used
    && (s.slot.platform.ref != 0 && u.slot.platform.ref != 0 ==> s.slot.platform.owner != u.slot.platform.owner)
  }

  ghost predicate RegistryOk(r: Registry) {
    && |r.slots| == SLOTS
    && r.next <= MAX_ID
    && (forall i | 0 <= i < SLOTS :: Inv(r.slots[i], r.next))
    && (forall i, j | 0 <= i < j < SLOTS :: Apart(r.slots[i], r.slots[j]))
  }

  ghost predicate Reachable(r: Registry) { exists run: seq<Action> :: Run(Empty(), run) == Some(r) }

  // ----- one slot, one step -----

  predicate ChildEvolves(c: Child, c': Child) { c' == c || (c' == c.(closed := true)) }

  /** A slot given away had nothing left in it. */
  predicate Spent(s: Slot) {
    && s.flags.failure == 0 && s.work == Work(0, 0) && s.held == Held(0, 0, 0)
    && s.current == NO_SIGNAL && s.loss == NO_SIGNAL
  }

  /** What one step may change: verdicts and losses stay, children only close, and the platform
      leaves the slot only when the slot is spent. */
  predicate Evolves(s: State, s': State) {
    && s.used <= s'.used
    && (s'.slot.platform == s.slot.platform ==>
          && (s.slot.flags.terminal ==> s'.slot.flags.terminal)
          && (s.slot.flags.failure != 0 ==> s'.slot.flags.failure != 0))
    && (s'.slot.platform != s.slot.platform ==>
          (s.slot == EMPTY && s'.slot == Occupied(s'.slot.platform) && s'.slot.platform.ref !in s.used)
          || (Spent(s.slot) && s.who.sinker.None? && s'.slot == EMPTY))
    && (forall c | c in s.children :: c in s'.children && ChildEvolves(s.children[c], s'.children[c]))
    && (s.slot.loss.id != 0 && s'.slot.loss.id == s.slot.loss.id ==>
          SameLoss(s.slot.loss, s'.slot.loss) && (s.slot.loss.fired ==> s'.slot.loss.fired))
  }

  lemma FreeEvolves(s: State, e: FreeStep, s': State)
    requires FlagsOk(s) && FreeNext(s, e) == Some(s')
    ensures Evolves(s, s')
  {}

  lemma ReserveEvolves(s: State, t: nat, p: nat, e: Step, next: nat, s': State)
    requires ReserveNext(s, t, p, e, next) == Some(s') && SignalOk(s, next)
    ensures Evolves(s, s') && s'.slot.platform == s.slot.platform && s'.used == s.used
  {}

  lemma StartEvolves(s: State, t: nat, p: nat, e: Step, s': State)
    requires StartNext(s, t, p, e) == Some(s')
    ensures Evolves(s, s') && s'.slot.platform == s.slot.platform && s'.used == s.used
  {}

  lemma WaitEvolves(s: State, t: nat, p: nat, pc: Pc, e: Step, s': State)
    requires WaitNext(s, t, p, pc, e) == Some(s')
    ensures Evolves(s, s') && s'.slot.platform == s.slot.platform && s'.used == s.used
  {}

  lemma CallEvolves(s: State, t: nat, p: nat, op: Op, e: Step, next: nat, s': State)
    requires CallNext(s, t, p, op, e, next) == Some(s')
    ensures Evolves(s, s') && s'.slot.platform == s.slot.platform && s'.used == s.used
  {}

  lemma GrantEvolves(s: State, t: nat, p: nat, op: Op, ref: nat, id: nat, s': State)
    requires GrantNext(s, t, p, op, ref, id) == Some(s')
    ensures Evolves(s, s') && s'.slot.platform == s.slot.platform && s'.used == s.used
  {}

  lemma HoldEvolves(s: State, t: nat, p: nat, op: Op, e: Step, next: nat, s': State)
    requires FlagsOk(s) && BusyOk(s) && WorkOk(s, next) && SignalOk(s, next)
    requires At(s, t) == Thread(p, Holding(op)) && HoldNext(s, t, p, op, e) == Some(s')
    ensures Evolves(s, s') && s'.used == s.used
    ensures s'.slot.platform != s.slot.platform ==> e == Finalized(0)
  {
    if op.Finalizing? {
      assert HolderOp(s) == Some(Finalizing);
    }
  }

  lemma ThreadEvolves(s: State, t: nat, p: nat, e: Step, next: nat, s': State)
    requires Inv(s, next) && ThreadNext(s, t, p, e, next) == Some(s')
    ensures Evolves(s, s') && s'.used == s.used
    ensures s'.slot.platform != s.slot.platform ==> e == Finalized(0)
  {
    var pc := At(s, t).pc;
    if pc.Holding? {
      if e.ChildGranted? {
        GrantEvolves(s, t, p, pc.op, e.ref, e.id, s');
      } else if InCall(pc.op) || pc.op.CallAdmitted? {
        CallEvolves(s, t, p, pc.op, e, next, s');
      } else {
        HoldEvolves(s, t, p, pc.op, e, next, s');
      }
    } else if !pc.Idle? {
      WaitEvolves(s, t, p, pc, e, s');
    } else if e.ReserveCurrent? || e.ReserveTransport? {
      ReserveEvolves(s, t, p, e, next, s');
    } else {
      StartEvolves(s, t, p, e, s');
    }
  }

  // ----- the registry -----

  lemma EmptyOk()
    ensures RegistryOk(Empty())
  {
    InitKeeps(0);
  }

  lemma StepKeepsApart(r: Registry, a: Action, r': Registry, j: nat)
    requires RegistryOk(r) && Next(r, a) == Some(r') && j < SLOTS && j != a.slot
    ensures |r'.slots| == SLOTS && r'.slots[j] == r.slots[j] && Apart(r.slots[j], r'.slots[a.slot])
  {
    var s, s' := r.slots[a.slot], r'.slots[a.slot];
    assert if j < a.slot then Apart(r.slots[j], s) else Apart(s, r.slots[j]);
    match a
    case Outside(i, e) => FreeKeepsApart(r, i, e, s', j);
    case Inside(i, t, p, e) => ThreadEvolves(s, t, p, e, r.next, s');
  }

  lemma FreeKeepsApart(r: Registry, i: nat, e: FreeStep, s': State, j: nat)
    requires i < |r.slots| && FreeNext(r.slots[i], e) == Some(s') && (e.Open? ==> MayOpen(r, i, e.platform))
    requires j < |r.slots| && Apart(r.slots[j], r.slots[i])
    ensures Apart(r.slots[j], s')
  {}

  lemma SlotsKeep(r: Registry, a: Action, r': Registry)
    requires RegistryOk(r) && Next(r, a) == Some(r')
    ensures r.next <= r'.next <= r.next + 1 && r'.next <= MAX_ID
    ensures |r'.slots| == SLOTS && forall j | 0 <= j < SLOTS :: Inv(r'.slots[j], r'.next)
  {
    var s, s' := r.slots[a.slot], r'.slots[a.slot];
    match a
    case Outside(i, e) => FreeKeeps(s, e, r.next, s');
    case Inside(i, t, p, e) => ThreadKeeps(s, t, p, e, r.next, s');
    forall j | 0 <= j < SLOTS
      ensures Inv(r'.slots[j], r'.next)
    {
      if j != a.slot {
        LaterKeeps(r.slots[j], r.next, r'.next);
      }
    }
  }

  lemma ApartKeeps(r: Registry, a: Action, r': Registry, i: nat, j: nat)
    requires RegistryOk(r) && Next(r, a) == Some(r') && i < j < SLOTS
    ensures |r'.slots| == SLOTS && Apart(r'.slots[i], r'.slots[j])
  {
    if i == a.slot {
      StepKeepsApart(r, a, r', j);
    } else if j == a.slot {
      StepKeepsApart(r, a, r', i);
    } else {
      assert Apart(r.slots[i], r.slots[j]);
    }
  }

  /** Every step anywhere keeps every slot's invariant and keeps the platforms apart. */
  lemma NextKeeps(r: Registry, a: Action, r': Registry)
    requires RegistryOk(r) && Next(r, a) == Some(r')
    ensures RegistryOk(r') && r.next <= r'.next <= r.next + 1
  {
    SlotsKeep(r, a, r');
    forall i, j | 0 <= i < j < SLOTS
      ensures Apart(r'.slots[i], r'.slots[j])
    {
      ApartKeeps(r, a, r', i, j);
    }
  }

  lemma {:induction false} RunKeeps(r: Registry, run: seq<Action>, r': Registry)
    requires RegistryOk(r) && Run(r, run) == Some(r')
    ensures RegistryOk(r') && r.next <= r'.next
    decreases run
  {
    if run != [] {
      var r1 := Next(r, run[0]).value;
      NextKeeps(r, run[0], r1);
      RunKeeps(r1, run[1..], r');
    }
  }

  lemma ReachableOk(r: Registry)
    requires Reachable(r)
    ensures RegistryOk(r)
  {
    var run: seq<Action> :| Run(Empty(), run) == Some(r);
    EmptyOk();
    RunKeeps(Empty(), run, r);
  }

  lemma {:induction false} RunSnoc(r: Registry, run: seq<Action>, r1: Registry, a: Action)
    requires Run(r, run) == Some(r1)
    ensures Run(r, run + [a]) == Next(r1, a)
    decreases run
  {
    if run == [] {
      assert run + [a] == [a];
      assert [a][1..] == [];
    } else {
      RunSnoc(Next(r, run[0]).value, run[1..], r1, a);
      assert (run + [a])[1..] == run[1..] + [a];
    }
  }

  lemma ReachableNext(r: Registry, a: Action, r': Registry)
    requires Reachable(r) && Next(r, a) == Some(r')
    ensures Reachable(r')
  {
    var run: seq<Action> :| Run(Empty(), run) == Some(r);
    RunSnoc(Empty(), run, r, a);
  }

  // ----- what holds of every reachable registry -----

  /** One operation at a time: a call in flight or staged bytes mean the busy bit is set, and once
      it is clear every cancellation hook has returned or been stopped. */
  lemma OneOperation(r: Registry, i: nat)
    requires Reachable(r) && i < |r.slots|
    ensures var s := r.slots[i];
            && (s.slot.work.call != 0 || s.slot.work.staging != 0 ==> s.slot.flags.busy)
            && s.slot.work.staging <= STAGING_LIMIT
            && (!s.slot.flags.busy ==>
                  forall id | id in s.world.hooks :: s.world.hooks[id] == Returned || s.world.hooks[id] == Stopped)
    ensures forall t, u | t in r.slots[i].threads && u in r.slots[i].threads ::
              r.slots[i].threads[t].pc.Holding? && r.slots[i].threads[u].pc.Holding? ==> t == u
  {
    ReachableOk(r);
    assert Inv(r.slots[i], r.next);
  }

  /** A platform leaves its slot only through a finalization the platform itself reported
      successful, from a slot with no call, staging, child, signal, failure or running sink. */
  lemma RecycledOnlyWhenSpent(r: Registry, a: Action, r': Registry)
    requires Reachable(r) && Next(r, a) == Some(r')
    requires a.slot < |r.slots| && r.slots[a.slot].slot.platform.ref != 0
    requires r'.slots[a.slot].slot.platform != r.slots[a.slot].slot.platform
    ensures a.Inside? && a.step == Finalized(0)
    ensures Spent(r.slots[a.slot].slot) && r.slots[a.slot].who.sinker.None?
    ensures forall c | c in r.slots[a.slot].children :: r.slots[a.slot].children[c].closed
    ensures r'.slots[a.slot].slot == EMPTY
  {
    ReachableOk(r);
    var s := r.slots[a.slot];
    assert Inv(s, r.next);
    match a
    case Outside(i, e) => FreeEvolves(s, e, r'.slots[i]);
    case Inside(i, t, p, e) =>
      ThreadEvolves(s, t, p, e, r.next, r'.slots[i]);
      forall c | c in s.children
        ensures s.children[c].closed
      {
        assert !s.children[c].closed ==> OpenOk(s, c);
      }
  }

  /** A failure makes the slot terminal, and neither goes away while the platform stays; in
      particular a failed platform never leaves. */
  lemma FailureStays(r: Registry, a: Action, r': Registry, i: nat)
    requires Reachable(r) && Next(r, a) == Some(r') && i < |r.slots|
    requires r.slots[i].slot.flags.failure != 0
    ensures r.slots[i].slot.flags.terminal
    ensures i < |r'.slots| && r'.slots[i].slot.platform == r.slots[i].slot.platform
    ensures r'.slots[i].slot.flags.failure != 0 && r'.slots[i].slot.flags.terminal
  {
    ReachableOk(r);
    NextKeeps(r, a, r');
    var s := r.slots[a.slot];
    assert Inv(s, r.next) && Inv(r.slots[i], r.next);
    match a
    case Outside(k, e) => FreeEvolves(s, e, r'.slots[k]);
    case Inside(k, t, p, e) => ThreadEvolves(s, t, p, e, r.next, r'.slots[k]);
  }

  /** While an invalidation sink runs, its slot keeps the platform and its entry keeps the signal. */
  lemma SinkKeepsItsSlot(r: Registry, i: nat, t: nat)
    requires Reachable(r) && i < |r.slots| && t in r.slots[i].threads && r.slots[i].threads[t].pc.Sinking?
    ensures var s := r.slots[i];
            && Mine(s.slot, s.threads[t].platform) && s.slot.flags.terminal
            && s.slot.current.id == s.threads[t].pc.signal && s.slot.current.running
    ensures forall u | u in r.slots[i].threads && r.slots[i].threads[u].pc.Sinking? :: u == t
  {
    ReachableOk(r);
    assert Inv(r.slots[i], r.next);
  }

  // ----- lease currency -----

  /** localCurrentV1 on a transport lease, for every answer its expectation may give. */
  predicate LeaseCurrent(s: State, c: nat, epoch: nat, attempt: nat) {
    && c in s.children && s.children[c].kind == Transport && !s.children[c].closed
    && Mine(s.slot, s.children[c].platform) && s.slot.held.transport == c && Live(s.slot)
    && s.slot.loss.id == s.children[c].signal && !s.slot.loss.fired
    && s.slot.loss.epoch == epoch && s.slot.loss.attempt == attempt
  }

  /** A lease that was registered before a step and is current after it was current before it. */
  lemma CurrencyComesFrom(s: State, s': State, c: nat, epoch: nat, attempt: nat, next: nat)
    requires Inv(s, next) && Evolves(s, s') && c in s.children && LeaseCurrent(s', c, epoch, attempt)
    ensures LeaseCurrent(s, c, epoch, attempt)
  {
    assert ChildEvolves(s.children[c], s'.children[c]);
    assert OpenOk(s, c);
  }

  lemma StepDropsCurrency(r: Registry, a: Action, r': Registry, i: nat, c: nat, epoch: nat, attempt: nat)
    requires RegistryOk(r) && Next(r, a) == Some(r') && i < SLOTS
    requires c in r.slots[i].children && r.slots[i].children[c].kind == Transport
    requires !LeaseCurrent(r.slots[i], c, epoch, attempt)
    ensures RegistryOk(r') && c in r'.slots[i].children && r'.slots[i].children[c].kind == Transport
    ensures !LeaseCurrent(r'.slots[i], c, epoch, attempt)
  {
    NextKeeps(r, a, r');
    var s := r.slots[a.slot];
    if i == a.slot {
      match a
      case Outside(k, e) => FreeEvolves(s, e, r'.slots[k]);
      case Inside(k, t, p, e) => ThreadEvolves(s, t, p, e, r.next, r'.slots[k]);
      assert ChildEvolves(s.children[c], r'.slots[i].children[c]);
      if LeaseCurrent(r'.slots[i], c, epoch, attempt) {
        CurrencyComesFrom(s, r'.slots[i], c, epoch, attempt, r.next);
      }
    }
  }

  /** Once a registered lease is not current it is never current again, in any continuation,
      including after its slot has gone to another platform. */
  lemma CurrencyIsMonotone(r: Registry, run: seq<Action>, r': Registry, i: nat, c: nat, epoch: nat, attempt: nat)
    requires Reachable(r) && Run(r, run) == Some(r') && i < |r.slots|
    requires c in r.slots[i].children && r.slots[i].children[c].kind == Transport
    requires !LeaseCurrent(r.slots[i], c, epoch, attempt)
    ensures i < |r'.slots| && !LeaseCurrent(r'.slots[i], c, epoch, attempt)
  {
    ReachableOk(r);
    CurrencyFrom(r, run, r', i, c, epoch, attempt);
  }

  lemma {:induction false} CurrencyFrom(r: Registry, run: seq<Action>, r': Registry, i: nat, c: nat, epoch: nat,
                                        attempt: nat)
    requires RegistryOk(r) && Run(r, run) == Some(r') && i < SLOTS
    requires c in r.slots[i].children && r.slots[i].children[c].kind == Transport
    requires !LeaseCurrent(r.slots[i], c, epoch, attempt)
    ensures |r'.slots| == SLOTS && !LeaseCurrent(r'.slots[i], c, epoch, attempt)
    decreases run
  {
    if run != [] {
      var r1 := Next(r, run[0]).value;
      StepDropsCurrency(r, run[0], r1, i, c, epoch, attempt);
      CurrencyFrom(r1, run[1..], r', i, c, epoch, attempt);
    }
  }

  // ----- loss channels -----

  /** No loss channel is closed twice; a closed lease has its channel closed; an open one has it
      closed exactly when the loss has been delivered. */
  lemma LossChannels(r: Registry, i: nat)
    requires Reachable(r) && i < |r.slots|
    ensures var s := r.slots[i]; forall id | id in s.world.channels :: s.world.channels[id] <= 1
    ensures var s := r.slots[i]; forall c | c in s.children && s.children[c].kind == Transport ::
              && s.children[c].signal in s.world.channels
              && s.world.channels[s.children[c].signal] == (if s.children[c].closed || s.slot.loss.fired then 1 else 0)
  {
    ReachableOk(r);
    var s := r.slots[i];
    assert Inv(s, r.next);
    forall c | c in s.children && s.children[c].kind == Transport
      ensures s.children[c].signal in s.world.channels
      ensures s.world.channels[s.children[c].signal] == (if s.children[c].closed || s.slot.loss.fired then 1 else 0)
    {
      assert s.children[c].closed ==> ClosedOk(s, c);
      assert !s.children[c].closed ==> OpenOk(s, c);
    }
  }

  /** When a lease close clears its signal entry, the entry is the lease's own and has a channel. */
  lemma LeaseCloseFindsItsChannel(r: Registry, i: nat, t: nat, p: nat, c: nat)
    requires Reachable(r) && i < |r.slots|
    requires At(r.slots[i], t) == Thread(p, Holding(CloseAnswered(c, true)))
    requires c in r.slots[i].children && r.slots[i].children[c].kind == Transport
    ensures var s := r.slots[i];
            && s.slot.held.transport == c && s.slot.loss.id == s.children[c].signal != 0 && s.slot.loss.channel
            && s.slot.loss.id in s.world.channels
            && s.world.channels[s.slot.loss.id] == (if s.slot.loss.fired then 1 else 0)
  {
    ReachableOk(r);
    var s := r.slots[i];
    assert Inv(s, r.next);
    assert PointOk(s.children, s.world.accepted, s.slot.held, s.threads[t]);
    assert OpenOk(s, c);
  }

  // ----- publication currency -----

  /** A publication that reports current is, at the deciding section, open under an open revision
      of a slot that is neither terminal nor failed, although that section never looks at the revision. */
  lemma PublicationCurrent(r: Registry, i: nat, t: nat, p: nat, c: nat)
    requires Reachable(r) && i < |r.slots|
    requires At(r.slots[i], t) == Thread(p, Holding(CurrencyAnswered(c, true)))
    requires c in r.slots[i].children && CurrencyStands(r.slots[i], c)
    ensures var s := r.slots[i]; var v := s.children[c];
            && !v.closed && Live(s.slot) && s.slot.held.publication == c
            && v.parent in s.children && s.slot.held.revision == v.parent
            && s.children[v.parent].kind == Revision && !s.children[v.parent].closed
            && s.children[v.parent].platform == v.platform
  {
    ReachableOk(r);
    var s := r.slots[i];
    assert Inv(s, r.next);
    assert PointOk(s.children, s.world.accepted, s.slot.held, s.threads[t]);
    assert OpenOk(s, c) && HeldOk(s, Revision);
    assert OpenOk(s, s.children[c].parent);
  }

  /** A loss or invalidation callback addresses at most one slot: owners are distinct. */
  lemma OwnerNamesOneSlot(r: Registry, i: nat, j: nat)
    requires Reachable(r) && i < |r.slots| && j < |r.slots| && i != j
    requires r.slots[i].slot.platform.ref != 0 && r.slots[j].slot.platform.ref != 0
    ensures r.slots[i].slot.platform.owner != r.slots[j].slot.platform.owner
    ensures r.slots[i].slot.platform.ref != r.slots[j].slot.platform.ref
  {
    ReachableOk(r);
    assert Inv(r.slots[i], r.next) && Inv(r.slots[j], r.next);
    assert if i < j then Apart(r.slots[i], r.slots[j]) else Apart(r.slots[j], r.slots[i]);
  }
}

/**
 Runs of the registry's step system on the mutable table. The slots and the counter live only
 in the table; what a thread does next is decided by what its methods return. A whole run
 played this way leaves the table in the state the step system says.
 */
module PlatformReplay {
  import opened Options
  import opened Sums
  import opened PlatformSlot
  import opened PlatformProtocol
  import opened PlatformInvariants
  import opened PlatformTheorems
  import opened PlatformLeaks
  import opened PlatformTable

  /** Everything about a slot's history and threads that is not in the table. */
  datatype Rest = Rest(used: set<nat>, children: map<nat, Child>, threads: map<nat, Thread>, world: World, who: Owners)

  function Whole(slot: Slot, r: Rest): State { State(slot, r.used, r.children, r.threads, r.world, r.who) }

  function Seat(r: Rest, t: nat, p: nat, pc: Pc): Rest { r.(threads := r.threads[t := Thread(p, pc)]) }

  function Holds(r: Rest, t: nat, p: nat, op: Op): Rest { Seat(r, t, p, Holding(op)).(who := r.who.(busy := Some(t))) }

  function Place(r: Rest, t: nat): Thread { if t in r.threads then r.threads[t] else Thread(0, Idle) }

  /** One slot of the table took exactly this step, and the rest of the table stayed. */
  ghost predicate Follows(slots: seq<Slot>, next: nat, i: nat, r: Rest, s': Option<State>, taken: nat,
                          ok: bool, slots': seq<Slot>, next': nat, r': Rest)
    requires i < |slots|
  {
    if s'.Some?
    then ok && slots' == slots[i := s'.value.slot] && next' == next + taken && Whole(s'.value.slot, r') == s'.value
    else !ok && slots' == slots && next' == next && r' == r
  }

  // ----- threads -----

  method ReserveDo(tb: Table, i: nat, r: Rest, t: nat, p: nat, e: Step) returns (r': Rest)
    requires tb.Valid() && i < 64 && (e.ReserveCurrent? || e.ReserveTransport?) && Place(r, t).pc.Idle?
    modifies tb, tb.slots
    ensures tb.Valid()
    ensures var s := Whole(old(tb.slots[i]), r);
            Follows(old(tb.slots[..]), old(tb.next), i, r, ReserveNext(s, t, p, e, old(tb.next)),
                    Taken(s, t, p, e, old(tb.next)), true, tb.slots[..], tb.next, r')
  {
    r' := r;
    if e.ReserveCurrent? {
      var id, code := tb.ReserveRevisionSignal(i, p, e.epoch);
      if code == 0 {
        r' := Seat(r, t, p, RevisionReserved(id)).(who := r.who.(registrar := Some(t)));
      }
    } else {
      var id, code := tb.ReserveLossSignal(i, p, e.signalKind, e.epoch, e.attempt);
      if code == 0 {
        r' := Seat(r, t, p, LossReserved(id))
          .(world := r.world.(channels := r.world.channels[id := 0]), who := r.who.(lossOwner := Some(t)));
      }
    }
  }

  method StartDo(tb: Table, i: nat, r: Rest, t: nat, p: nat, e: Step) returns (ok: bool, r': Rest)
    requires tb.Valid() && i < 64
    requires OwnedAt(tb.slots[..], tb.slots[i].platform.owner) == i || tb.slots[i].platform.ref == 0
    modifies tb.slots
    ensures tb.Valid()
    ensures Follows(old(tb.slots[..]), tb.next, i, r, StartNext(Whole(old(tb.slots[i]), r), t, p, e), 0, ok,
                    tb.slots[..], tb.next, r')
  {
    ok, r' := true, r;
    if e.Finalize? {
      var claimed := tb.FinalizeClaim(i, p);
      if claimed {
        r' := Holds(r, t, p, Finalizing);
      }
    } else if e.BeginCall? || e.BeginCapture? {
      ok, r' := BeginDo(tb, i, r, t, p, e);
    } else if e.CheckClose? || e.CheckCurrency? {
      ok, r' := CheckDo(tb.slots[i], r, t, p, e);
    } else if e.InvalidationArrives? {
      if tb.slots[i].platform.ref == p && p != 0 {
        var sink, code := tb.InvalidationArrives(tb.slots[i].platform.owner, e.id);
        if sink {
          r' := Seat(r, t, p, Sinking(e.id)).(who := r.who.(sinker := Some(t)));
        }
      }
    } else {
      ok := false;
    }
  }

  method BeginDo(tb: Table, i: nat, r: Rest, t: nat, p: nat, e: Step) returns (ok: bool, r': Rest)
    requires tb.Valid() && i < 64 && (e.BeginCall? || e.BeginCapture?)
    modifies tb.slots
    ensures Follows(old(tb.slots[..]), tb.next, i, r, StartNext(Whole(old(tb.slots[i]), r), t, p, e), 0, ok,
                    tb.slots[..], tb.next, r')
  {
    ok, r' := true, r;
    if e.BeginCall? && (e.kind.TransportCall? ||
                        (e.kind.PublicationCall? && !IsRevision(Whole(tb.slots[i], r), e.kind.revision, p)))
    {
      ok := false;
    } else {
      var begun := tb.BeginOperation(i, p, false);
      if begun {
        r' := Holds(r, t, p, if e.BeginCall? then CallAdmitted(e.kind) else Capturing);
      }
    }
  }

  /** The first sections of a close and of a currency question only look. */
  method CheckDo(slot: Slot, r: Rest, t: nat, p: nat, e: Step) returns (ok: bool, r': Rest)
    requires e.CheckClose? || e.CheckCurrency?
    ensures var s' := StartNext(Whole(slot, r), t, p, e);
            if s'.Some? then ok && Whole(slot, r') == s'.value else !ok && r' == r
  {
    ok, r' := true, r;
    var s := Whole(slot, r);
    if e.child !in r.children || r.children[e.child].platform != p {
      ok := false;
    } else if e.CheckClose? {
      if !r.children[e.child].closed {
        r' := Seat(r, t, p, if CloseValid(s, e.child) then CloseChecked(e.child) else FailOwed);
      }
    } else if r.children[e.child].kind != Publication {
      ok := false;
    } else if CurrencyValid(s, e.child) {
      r' := Seat(r, t, p, CurrencyChecked(e.child));
    }
  }

  method WaitDo(tb: Table, i: nat, r: Rest, t: nat, p: nat, pc: Pc, e: Step) returns (ok: bool, r': Rest)
    requires tb.Valid() && i < 64
    modifies tb.slots
    ensures tb.Valid()
    ensures Follows(old(tb.slots[..]), tb.next, i, r, WaitNext(Whole(old(tb.slots[i]), r), t, p, pc, e), 0, ok,
                    tb.slots[..], tb.next, r')
  {
    ok, r' := true, r;
    if pc.FailOwed? && e.RecordFailure? {
      tb.FailPlatform(i, p);
      r' := Seat(r, t, p, Idle);
    } else if pc.LossReserved? && e.CallSkipped? {
      r' := Seat(r, t, p, Idle).(who := r.who.(lossOwner := None));
    } else if pc.Sinking? && e.SinkReturns? {
      var code := tb.SinkSettles(i, e.result);
      r' := Seat(r, t, p, Idle).(who := r.who.(sinker := None));
    } else if pc.LossReserved? && e.BeginCall? && e.kind == TransportCall(pc.signal) {
      var begun := tb.BeginOperation(i, p, false);
      r' := if begun then Holds(r, t, p, CallAdmitted(e.kind))
          else Seat(r, t, p, Idle).(who := r.who.(lossOwner := None));
    } else if pc.RevisionReserved? && e.BeginRegister? {
      var begun := tb.BeginOperation(i, p, false);
      r' := if begun then Holds(r, t, p, Registering(pc.signal))
            else Seat(r, t, p, Idle).(who := r.who.(registrar := None));
    } else if pc.CloseChecked? && e.BeginClose? {
      var begun := tb.BeginOperation(i, p, true);
      r' := if begun then Holds(r, t, p, ClosingChild(pc.child)) else Seat(r, t, p, FailOwed);
    } else if pc.CurrencyChecked? && e.BeginCurrency? {
      var begun := tb.BeginOperation(i, p, false);
      r' := if begun then Holds(r, t, p, AskingCurrency(pc.child)) else Seat(r, t, p, Idle);
    } else {
      ok := false;
    }
  }

  method CallDo(tb: Table, i: nat, r: Rest, t: nat, p: nat, op: Op, e: Step) returns (ok: bool, r': Rest)
    requires tb.Valid() && i < 64 && (op.CallAdmitted? || InCall(op))
    modifies tb, tb.slots
    ensures tb.Valid()
    ensures var s := Whole(old(tb.slots[i]), r);
            Follows(old(tb.slots[..]), old(tb.next), i, r, CallNext(s, t, p, op, e, old(tb.next)),
                    Taken(s, t, p, e, old(tb.next)), ok, tb.slots[..], tb.next, r')
  {
    ok, r' := true, r;
    if op.CallAdmitted? && e.RegisterCall? {
      r' := RegisterDo(tb, i, r, t, p, op.kind);
    } else if op.CallSettled? && e.ClearCall? {
      var found := tb.ClearCall(i, op.id);
      r' := Seat(r, t, p, Holding(Ending));
    } else if op.CallReturned? && e.SettleHook? {
      ok, r' := HookDo(r, t, p, op.id);
    } else if op.Acquiring? && e.NoChild? {
      r' := Seat(r, t, p, Holding(CallReturned(op.id)));
    } else if op.Calling? && e.CallSkipped? {
      var freed := if op.kind.TransportCall? then r.(who := r.who.(lossOwner := None)) else r;
      r' := Seat(freed, t, p, Holding(CallReturned(op.id)));
    } else if op.Calling? && e.Acquire? && op.kind.PublicationCall? {
      var rev := op.kind.revision;
      var held := tb.slots[i].held;
      var refused := held.publication != 0 || held.revision != rev || (rev in r.children && r.children[rev].closed);
      r' := Seat(r, t, p, Holding(if refused then CallReturned(op.id) else Acquiring(rev, op.id)));
    } else {
      ok := false;
    }
  }

  method RegisterDo(tb: Table, i: nat, r: Rest, t: nat, p: nat, kind: CallKind) returns (r': Rest)
    requires tb.Valid() && i < 64
    modifies tb, tb.slots
    ensures tb.Valid()
    ensures var s := Whole(old(tb.slots[i]), r);
            Follows(old(tb.slots[..]), old(tb.next), i, r,
                    CallNext(s, t, p, CallAdmitted(kind), RegisterCall, old(tb.next)),
                    Taken(s, t, p, RegisterCall, old(tb.next)), true, tb.slots[..], tb.next, r')
  {
    var id := tb.RegisterCall(i);
    if id == 0 {
      var freed := if kind.TransportCall? then r.(who := r.who.(lossOwner := None)) else r;
      r' := Seat(freed, t, p, Holding(Ending));
    } else {
      r' := Seat(r.(world := r.world.(hooks := r.world.hooks[id := Armed])), t, p, Holding(Calling(kind, id)));
    }
  }

  /** Stopping a cancellation hook that has not started, or waiting for it. */
  method HookDo(r: Rest, t: nat, p: nat, id: nat) returns (ok: bool, r': Rest)
    ensures forall slot, next ::
              var s' := CallNext(Whole(slot, r), t, p, CallReturned(id), SettleHook, next);
              if s'.Some? then ok && Whole(slot, r') == s'.value else !ok && r' == r
  {
    ok, r' := id in r.world.hooks && r.world.hooks[id] != Firing, r;
    if ok {
      var hooks := if r.world.hooks[id] == Armed then r.world.hooks[id := Stopped] else r.world.hooks;
      r' := Seat(r.(world := r.world.(hooks := hooks)), t, p, Holding(CallSettled(id)));
    }
  }

  method GrantDo(tb: Table, i: nat, r: Rest, t: nat, p: nat, op: Op, ref: nat, id: nat) returns (ok: bool, r': Rest)
    requires tb.Valid() && i < 64
    modifies tb.slots
    ensures tb.Valid()
    ensures Follows(old(tb.slots[..]), tb.next, i, r, GrantNext(Whole(old(tb.slots[i]), r), t, p, op, ref, id), 0, ok,
                    tb.slots[..], tb.next, r')
  {
    ok, r' := true, r;
    if ref == 0 || ref in r.children || id == 0 {
      ok := false;
    } else if op.Acquiring? {
      var child := Child(Publication, p, id, op.revision, 0, 0, 0, false);
      tb.AdoptChild(i, Publication, ref);
      r' := Seat(r.(children := r.children[ref := child]), t, p, Holding(CallReturned(op.id)));
    } else if op.Calling? && op.kind.TransportCall? {
      var loss := tb.slots[i].loss;
      var child := Child(Transport, p, id, 0, op.kind.signal, loss.epoch, loss.attempt, false);
      tb.AdoptChild(i, Transport, ref);
      var owned := r.(children := r.children[ref := child], who := r.who.(lossOwner := None));
      r' := Seat(owned, t, p, Holding(CallReturned(op.id)));
    } else if op.Registering? {
      var child := Child(Revision, p, id, 0, op.signal, 0, 0, false);
      tb.AdoptChild(i, Revision, ref);
      var owned := r.(children := r.children[ref := child], who := r.who.(registrar := None));
      r' := Seat(owned, t, p, Holding(Ending));
    } else {
      ok := false;
    }
  }

  method HoldDo(tb: Table, i: nat, r: Rest, t: nat, p: nat, op: Op, e: Step) returns (ok: bool, r': Rest)
    requires tb.Valid() && i < 64
    modifies tb.slots
    ensures tb.Valid()
    ensures Follows(old(tb.slots[..]), tb.next, i, r, HoldNext(Whole(old(tb.slots[i]), r), t, p, op, e), 0, ok,
                    tb.slots[..], tb.next, r')
  {
    ok, r' := true, r;
    if op.Finalizing? && e.Finalized? {
      var code := tb.FinalizeSettle(i, p, e.result);
      r' := Seat(r, t, p, Idle).(who := r.who.(busy := None));
    } else if op.Capturing? && e.StageCapture? {
      r' := CaptureDo(tb, i, r, t, p, e.lengths);
    } else if op.CloseAnswered? && e.CommitClose? {
      ok, r' := CommitDo(tb, i, r, t, p, op.child, op.accepted);
    } else if op.AskingCurrency? && e.CurrencyAnswer? {
      if e.ok {
        r' := Seat(r, t, p, Holding(CurrencyAnswered(op.child, e.current)));
      } else {
        tb.FailPlatform(i, p);
        r' := Seat(r, t, p, Holding(Ending));
      }
    } else if op.Ending? && e.EndOperation? {
      tb.EndOperation(i, p);
      r' := Seat(r, t, p, Idle).(who := r.who.(busy := None));
    } else {
      ok, r' := HoldLook(tb.slots[i], r, t, p, op, e);
    }
  }

  predicate Looks(op: Op, e: Step) {
    || op.ClosingChild? || op.CurrencyAnswered? || op.Registering? || (op.Capturing? && !e.StageCapture?)
  }

  /** Steps under the busy bit that write nothing in the slot. */
  method HoldLook(slot: Slot, r: Rest, t: nat, p: nat, op: Op, e: Step) returns (ok: bool, r': Rest)
    requires Looks(op, e) || HoldNext(Whole(slot, r), t, p, op, e).None?
    ensures var s' := HoldNext(Whole(slot, r), t, p, op, e);
            if s'.Some? then ok && Whole(slot, r') == s'.value else !ok && r' == r
  {
    ok, r' := true, r;
    if op.Capturing? && e.NoChild? {
      r' := Seat(r, t, p, Holding(Ending));
    } else if op.Registering? && e.NoChild? {
      r' := Seat(r.(who := r.who.(registrar := None)), t, p, Holding(Ending));
    } else if op.CurrencyAnswered? && e.DecideCurrency? {
      r' := Seat(r, t, p, Holding(Ending));
    } else if op.ClosingChild? && e.CloseAnswer? && op.child in r.children
              && !(e.accepted && Key(r.children[op.child]) in r.world.accepted)
    {
      var key := Key(r.children[op.child]);
      var asked := if e.accepted then r.(world := r.world.(accepted := r.world.accepted + {key})) else r;
      r' := Seat(asked, t, p, Holding(CloseAnswered(op.child, e.accepted)));
    } else {
      ok := false;
    }
  }

  method CaptureDo(tb: Table, i: nat, r: Rest, t: nat, p: nat, lengths: seq<nat>) returns (r': Rest)
    requires tb.Valid() && i < 64
    modifies tb.slots
    ensures Follows(old(tb.slots[..]), tb.next, i, r,
                    HoldNext(Whole(old(tb.slots[i]), r), t, p, Capturing, StageCapture(lengths)), 0, true,
                    tb.slots[..], tb.next, r')
  {
    if !RowsFit(lengths) {
      tb.FailPlatform(i, p);
    } else if Live(tb.slots[i]) {
      tb.StageBytes(i, Sum(lengths));
    }
    r' := Seat(r, t, p, Holding(Ending));
  }

  method CommitDo(tb: Table, i: nat, r: Rest, t: nat, p: nat, ref: nat, accepted: bool) returns (ok: bool, r': Rest)
    requires tb.Valid() && i < 64
    modifies tb.slots
    ensures Follows(old(tb.slots[..]), tb.next, i, r,
                    HoldNext(Whole(old(tb.slots[i]), r), t, p, CloseAnswered(ref, accepted), CommitClose), 0, ok,
                    tb.slots[..], tb.next, r')
  {
    ok, r' := ref in r.children, r;
    if ok {
      var child := r.children[ref];
      var id := tb.slots[i].loss.id;
      var freed, closes := tb.CommitChildClose(i, p, child.kind, if accepted then 0 else 1);
      if freed {
        r' := r.(children := r.children[ref := child.(closed := true)],
                 world := if closes then CloseChannel(r.world, id) else r.world);
      }
      r' := Seat(r', t, p, Holding(Ending));
    }
  }

  method ThreadDo(tb: Table, i: nat, r: Rest, t: nat, p: nat, e: Step) returns (ok: bool, r': Rest)
    requires tb.Valid() && i < 64
    requires OwnedAt(tb.slots[..], tb.slots[i].platform.owner) == i || tb.slots[i].platform.ref == 0
    modifies tb, tb.slots
    ensures tb.Valid()
    ensures var s := Whole(old(tb.slots[i]), r);
            Follows(old(tb.slots[..]), old(tb.next), i, r, ThreadNext(s, t, p, e, old(tb.next)),
                    Taken(s, t, p, e, old(tb.next)), ok, tb.slots[..], tb.next, r')
  {
    var at := Place(r, t);
    if at.pc.Idle? {
      if e.ReserveCurrent? || e.ReserveTransport? {
        r' := ReserveDo(tb, i, r, t, p, e);
        ok := true;
      } else {
        ok, r' := StartDo(tb, i, r, t, p, e);
      }
    } else if at.platform != p {
      ok, r' := false, r;
    } else if !at.pc.Holding? {
      ok, r' := WaitDo(tb, i, r, t, p, at.pc, e);
    } else if e.ChildGranted? {
      ok, r' := GrantDo(tb, i, r, t, p, at.pc.op, e.ref, e.id);
    } else if at.pc.op.CallAdmitted? || InCall(at.pc.op) {
      ok, r' := CallDo(tb, i, r, t, p, at.pc.op, e);
    } else {
      ok, r' := HoldDo(tb, i, r, t, p, at.pc.op, e);
    }
  }

  // ----- the whole table -----

  function Assemble(slots: seq<Slot>, rests: seq<Rest>): (states: seq<State>)
    requires |slots| == |rests|
    ensures |states| == |slots| && forall i | 0 <= i < |states| :: states[i] == Whole(slots[i], rests[i])
  {
    seq(|slots|, i requires 0 <= i < |slots| == |rests| => Whole(slots[i], rests[i]))
  }

  function Joined(slots: seq<Slot>, next: nat, rests: seq<Rest>): Registry
    requires |slots| == |rests|
  {
    Registry(next, Assemble(slots, rests))
  }

  /** In a registry whose owners are distinct the search by owner finds the slot itself. */
  lemma OwnerFindsSlot(slots: seq<Slot>, next: nat, rests: seq<Rest>, i: nat)
    requires |slots| == |rests| == 64 && RegistryOk(Joined(slots, next, rests)) && i < 64
    ensures OwnedAt(slots, slots[i].platform.owner) == i || slots[i].platform.ref == 0
    ensures slots[i].platform.ref != 0 ==> slots[i].platform.owner != 0
  {
    var r := Joined(slots, next, rests);
    assert Inv(r.slots[i], next);
    if slots[i].platform.ref != 0 {
      forall j | 0 <= j < i
        ensures slots[j].platform.ref == 0 || slots[j].platform.owner != slots[i].platform.owner
      {
        assert Apart(r.slots[j], r.slots[i]);
      }
      OwnedAtIs(slots, slots[i].platform.owner, i);
    }
  }

  /** A step in one slot is a step of the registry. */
  lemma Lifts(slots: seq<Slot>, next: nat, rests: seq<Rest>, i: nat, slot': Slot, next': nat, r': Rest)
    requires |slots| == |rests| && i < |slots|
    ensures Joined(slots[i := slot'], next', rests[i := r'])
         == Registry(next', Joined(slots, next, rests).slots[i := Whole(slot', r')])
  {
    assert Assemble(slots[i := slot'], rests[i := r']) == Assemble(slots, rests)[i := Whole(slot', r')];
  }

  method OpenDo(tb: Table, rests: seq<Rest>, i: nat, p: Platform) returns (ok: bool, r': Rest)
    requires tb.Valid() && |rests| == 64 && i < 64
    modifies tb.slots
    ensures var whole := Joined(old(tb.slots[..]), tb.next, rests);
            var s' := if MayOpen(whole, i, p) then FreeNext(whole.slots[i], Open(p)) else None;
            Follows(old(tb.slots[..]), tb.next, i, rests[i], s', 0, ok, tb.slots[..], tb.next, r')
  {
    var whole := Joined(tb.slots[..], tb.next, rests);
    r' := rests[i];
    ok := MayOpen(whole, i, p) && tb.slots[i].platform.ref == 0 && p.ref != 0 && p.ref !in r'.used && p.owner != 0;
    if ok {
      assert forall j | 0 <= j < 64 :: whole.slots[j].slot == tb.slots[j];
      var at, code := tb.Open(p, true);
      r' := r'.(used := r'.used + {p.ref});
    }
  }

  method FreeDo(tb: Table, i: nat, r: Rest, e: FreeStep) returns (ok: bool, r': Rest)
    requires tb.Valid() && i < 64 && !e.Open?
    requires OwnedAt(tb.slots[..], tb.slots[i].platform.owner) == i || tb.slots[i].platform.ref == 0
    requires tb.slots[i].platform.ref != 0 ==> tb.slots[i].platform.owner != 0
    modifies tb.slots
    ensures Follows(old(tb.slots[..]), tb.next, i, r, FreeNext(Whole(old(tb.slots[i]), r), e), 0, ok,
                    tb.slots[..], tb.next, r')
  {
    ok, r' := true, r;
    if e.FailPlatform? {
      tb.FailPlatform(i, e.ref);
    } else if e.HookFires? {
      ok := e.call in r.world.hooks && r.world.hooks[e.call] == Armed;
      if ok {
        r' := r.(world := r.world.(hooks := r.world.hooks[e.call := Firing]));
      }
    } else if e.HookReturns? {
      ok := e.call in r.world.hooks && r.world.hooks[e.call] == Firing;
      if ok {
        r' := r.(world := r.world.(hooks := r.world.hooks[e.call := Returned]));
        if e.bad {
          tb.FailPlatform(i, tb.slots[i].platform.ref);
        }
      }
    } else if tb.slots[i].platform.ref != 0 {
      var closes, code := tb.LossArrives(tb.slots[i].platform.owner, e.id, e.kind);
      if closes {
        r' := r.(world := CloseChannel(r.world, e.id));
      }
    }
  }

  /** One action of the registry on the table. */
  method Do(tb: Table, rests: seq<Rest>, a: Action) returns (ok: bool, rests': seq<Rest>)
    requires tb.Valid() && |rests| == 64 && RegistryOk(Joined(tb.slots[..], tb.next, rests))
    modifies tb, tb.slots
    ensures tb.Valid() && |rests'| == 64
    ensures var next := Next(Joined(old(tb.slots[..]), old(tb.next), rests), a);
            if next.Some? then ok && Joined(tb.slots[..], tb.next, rests') == next.value
            else !ok && Joined(tb.slots[..], tb.next, rests') == Joined(old(tb.slots[..]), old(tb.next), rests)
  {
    if a.slot >= 64 {
      return false, rests;
    }
    ghost var slots, counter := tb.slots[..], tb.next;
    var i := a.slot;
    OwnerFindsSlot(slots, counter, rests, i);
    var r';
    if a.Inside? {
      ok, r' := ThreadDo(tb, i, rests[i], a.thread, a.platform, a.step);
    } else if a.free.Open? {
      ok, r' := OpenDo(tb, rests, i, a.free.platform);
    } else {
      ok, r' := FreeDo(tb, i, rests[i], a.free);
    }
    rests' := rests[i := r'];
    ActionFollows(slots, counter, rests, a, ok, tb.slots[..], tb.next, r');
  }

  /** The slot's step and the counter's, as the registry's action sees them. */
  function SlotNext(r: Registry, a: Action): Option<State>
    requires a.slot < |r.slots|
  {
    match a
    case Outside(i, e) => if e.Open? && !MayOpen(r, i, e.platform) then None else FreeNext(r.slots[i], e)
    case Inside(i, t, p, e) => ThreadNext(r.slots[i], t, p, e, r.next)
  }

  function ActionTaken(r: Registry, a: Action): nat
    requires a.slot < |r.slots|
  {
    if a.Inside? then Taken(r.slots[a.slot], a.thread, a.platform, a.step, r.next) else 0
  }

  lemma ActionFollows(slots: seq<Slot>, next: nat, rests: seq<Rest>, a: Action, ok: bool, slots': seq<Slot>,
                      next': nat, r': Rest)
    requires |slots| == |rests| && a.slot < |slots|
    requires var whole := Joined(slots, next, rests);
             Follows(slots, next, a.slot, rests[a.slot], SlotNext(whole, a), ActionTaken(whole, a),
                     ok, slots', next', r')
    ensures |slots'| == |rests|
    ensures var s' := Next(Joined(slots, next, rests), a);
            if s'.Some? then ok && Joined(slots', next', rests[a.slot := r']) == s'.value
            else !ok && slots' == slots && next' == next && rests[a.slot := r'] == rests
  {
    Lifts(slots, next, rests, a.slot, slots'[a.slot], next', r');
  }

  lemma {:induction false} StuckStaysStuck(r: Registry, run: seq<Action>, rest: seq<Action>)
    requires Run(r, run) == None
    ensures Run(r, run + rest) == None
    decreases run
  {
    if Next(r, run[0]).Some? {
      StuckStaysStuck(Next(r, run[0]).value, run[1..], rest);
      assert (run + rest)[1..] == run[1..] + rest;
    }
  }

  /** The first k actions of a run from r lead here. */
  ghost predicate Played(r: Registry, run: seq<Action>, k: nat, r': Registry) {
    k <= |run| && Run(r, run[..k]) == Some(r')
  }

  lemma PlayedNext(r: Registry, run: seq<Action>, k: nat, r': Registry)
    requires k < |run| && Played(r, run, k, r')
    ensures Run(r, run[..k + 1]) == Next(r', run[k])
  {
    assert run[..k + 1] == run[..k] + [run[k]];
    RunSnoc(r, run[..k], r', run[k]);
  }

  lemma PlayedStuck(r: Registry, run: seq<Action>, k: nat)
    requires k <= |run| && Run(r, run[..k]) == None
    ensures Run(r, run) == None
  {
    StuckStaysStuck(r, run[..k], run[k..]);
    assert run[..k] + run[k..] == run;
  }

  /** A table played on: it follows the run as far as the step system does, and stops exactly where
      the step system cannot go on. */
  method PlayOn(tb: Table, rests: seq<Rest>, run: seq<Action>) returns (ok: bool, rests': seq<Rest>, ghost k: nat)
    requires tb.Valid() && |rests| == 64 && RegistryOk(Joined(tb.slots[..], tb.next, rests))
    modifies tb, tb.slots
    ensures tb.Valid() && |rests'| == 64
    ensures Played(Joined(old(tb.slots[..]), old(tb.next), rests), run, k, Joined(tb.slots[..], tb.next, rests'))
    ensures ok <==> k == |run|
    ensures ok <==> Run(Joined(old(tb.slots[..]), old(tb.next), rests), run).Some?
  {
    ghost var r := Joined(tb.slots[..], tb.next, rests);
    ok, rests' := true, rests;
    var i := 0;
    while i < |run|
      invariant 0 <= i <= |run| && tb.Valid() && |rests'| == 64
      invariant Played(r, run, i, Joined(tb.slots[..], tb.next, rests'))
    {
      RunKeeps(r, run[..i], Joined(tb.slots[..], tb.next, rests'));
      PlayedNext(r, run, i, Joined(tb.slots[..], tb.next, rests'));
      ok, rests' := Do(tb, rests', run[i]);
      if !ok {
        PlayedStuck(r, run, i + 1);
        k := i;
        return;
      }
      i := i + 1;
    }
    k := i;
    assert run[..i] == run;
  }

  const FRESH: Rest := Rest({}, map[], map[], World(map[], map[], {}), Owners(None, None, None, None))

  /** A new table played through a run. */
  method Play(run: seq<Action>) returns (tb: Table, ok: bool, rests: seq<Rest>)
    ensures tb.Valid() && |rests| == 64
    ensures ok <==> Run(Empty(), run).Some?
    ensures ok ==> Run(Empty(), run) == Some(Joined(tb.slots[..], tb.next, rests))
    ensures Reachable(Joined(tb.slots[..], tb.next, rests))
  {
    tb := new Table();
    rests := seq(64, _ => FRESH);
    assert Joined(tb.slots[..], tb.next, rests).slots == Empty().slots;
    EmptyOk();
    ghost var k;
    ok, rests, k := PlayOn(tb, rests, run);
    assert run[..|run|] == run;
  }

  /** What the theorems say of the table after any run. */
  method PlaySafely(run: seq<Action>) returns (tb: Table, rests: seq<Rest>)
    ensures tb.Valid() && |rests| == 64
    ensures forall i | 0 <= i < 64 ::
              var s := tb.slots[i];
              && (s.flags.failure != 0 ==> s.flags.terminal)
              && (s.work.call != 0 || s.work.staging != 0 ==> s.flags.busy)
              && s.work.staging <= STAGING_LIMIT && s.current.id <= tb.next && s.loss.id <= tb.next
              && (s.current.running ==> s.flags.terminal) && (s.platform.ref == 0 ==> s == EMPTY)
    ensures forall i, j | 0 <= i < j < 64 ::
              tb.slots[i].platform.ref != 0 && tb.slots[j].platform.ref != 0 ==>
                tb.slots[i].platform.owner != tb.slots[j].platform.owner
    ensures forall i | 0 <= i < 64 :: ChannelsCounted(tb.slots[i], rests[i])
  {
    var ok;
    tb, ok, rests := Play(run);
    var r := Joined(tb.slots[..], tb.next, rests);
    ReachableOk(r);
    forall i | 0 <= i < 64
      ensures Inv(r.slots[i], r.next) && r.slots[i].slot == tb.slots[i] && ChannelsCounted(tb.slots[i], rests[i])
    {
      LossChannels(r, i);
    }
    forall i, j | 0 <= i < j < 64 && tb.slots[i].platform.ref != 0 && tb.slots[j].platform.ref != 0
      ensures tb.slots[i].platform.owner != tb.slots[j].platform.owner
    {
      assert Apart(r.slots[i], r.slots[j]);
    }
  }

  /** Every loss channel is closed at most once, and a lease's exactly when it is closed or lost. */
  predicate ChannelsCounted(slot: Slot, r: Rest) {
    && (forall id | id in r.world.channels :: r.world.channels[id] <= 1)
    && (forall c | c in r.children && r.children[c].kind == Transport ::
          && r.children[c].signal in r.world.channels
          && r.world.channels[r.children[c].signal] == (if r.children[c].closed || slot.loss.fired then 1 else 0))
  }

  /** And of the table over any continuation: no registered lease becomes current again, and a
      leaked entry keeps its slot. */
  method ContinueSafely(tb: Table, rests: seq<Rest>, run: seq<Action>) returns (rests': seq<Rest>)
    requires tb.Valid() && |rests| == 64 && Reachable(Joined(tb.slots[..], tb.next, rests))
    modifies tb, tb.slots
    ensures tb.Valid() && |rests'| == 64
    ensures forall i, c, epoch, attempt |
              0 <= i < 64 && c in rests[i].children && rests[i].children[c].kind == Transport
              && !LeaseCurrent(Whole(old(tb.slots[i]), rests[i]), c, epoch, attempt) ::
              !LeaseCurrent(Whole(tb.slots[i], rests'[i]), c, epoch, attempt)
    ensures forall i, loss | 0 <= i < 64 && Leaked(Whole(old(tb.slots[i]), rests[i]), loss) ::
              Leaked(Whole(tb.slots[i], rests'[i]), loss) && tb.slots[i].platform == old(tb.slots[i]).platform
  {
    ghost var r := Joined(tb.slots[..], tb.next, rests);
    ReachableOk(r);
    var ok;
    ghost var k;
    ok, rests', k := PlayOn(tb, rests, run);
    ghost var r' := Joined(tb.slots[..], tb.next, rests');
    forall i, c, epoch, attempt |
      0 <= i < 64 && c in rests[i].children && rests[i].children[c].kind == Transport
      && !LeaseCurrent(r.slots[i], c, epoch, attempt)
      ensures !LeaseCurrent(r'.slots[i], c, epoch, attempt)
    {
      CurrencyIsMonotone(r, run[..k], r', i, c, epoch, attempt);
    }
    forall i, loss | 0 <= i < 64 && Leaked(r.slots[i], loss)
      ensures Leaked(r'.slots[i], loss) && r'.slots[i].slot.platform == r.slots[i].slot.platform
    {
      LeakIsForever(r, run[..k], r', i, loss);
    }
  }
}

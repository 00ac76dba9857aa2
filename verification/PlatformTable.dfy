/**
 The registry as the mutable table it is: an array of sixty-four slots and a counter,
 updated in place. Each method is one section under the registry lock; its contract
 ties the table to the slot functions the step system is built from.
 */
module PlatformTable {
  import opened PlatformSlot

  const INVALID_ARGUMENT: nat := 1

  /** The first slot whose platform has this owner, or the length when there is none. */
  function OwnedAt(slots: seq<Slot>, owner: nat): (i: nat)
    ensures i <= |slots|
    ensures i < |slots| ==> slots[i].platform.ref != 0 && slots[i].platform.owner == owner
    ensures forall j | 0 <= j < i :: slots[j].platform.ref == 0 || slots[j].platform.owner != owner
  {
    if slots == [] then 0
    else if slots[0].platform.ref != 0 && slots[0].platform.owner == owner then 0
    else
      var rest := OwnedAt(slots[1..], owner);
      assert forall j | 0 < j < rest + 1 :: slots[j] == slots[1..][j - 1];
      rest + 1
  }

  lemma {:induction false} OwnedAtIs(slots: seq<Slot>, owner: nat, i: nat)
    requires i <= |slots|
    requires i < |slots| ==> slots[i].platform.ref != 0 && slots[i].platform.owner == owner
    requires forall j | 0 <= j < i :: slots[j].platform.ref == 0 || slots[j].platform.owner != owner
    ensures OwnedAt(slots, owner) == i
  {
    if i > 0 && slots != [] {
      OwnedAtIs(slots[1..], owner, i - 1);
    }
  }

  class Table {
    var next: nat
    const slots: array<Slot>

    ghost predicate Valid()
      reads this
    {
      slots.Length == 64 && next <= MAX_ID
    }

    constructor ()
      ensures Valid() && fresh(slots) && next == 0
      ensures forall i | 0 <= i < 64 :: slots[i] == EMPTY
    {
      next := 0;
      slots := new Slot[64](i => EMPTY);
    }

    /** newAndroidPlatformV1: an owner is admitted once, into the first free slot. */
    method Open(p: Platform, tableValid: bool) returns (at: nat, code: nat)
      requires Valid() && p.ref != 0
      modifies slots
      ensures code in {0, INVALID_ARGUMENT, STATE_CORRUPT, RESOURCE_LIMIT}
      ensures code == INVALID_ARGUMENT <==> p.owner == 0 || (p.kind != 1 && p.kind != 2) || !tableValid
      ensures code != INVALID_ARGUMENT ==>
                (code == STATE_CORRUPT <==> exists i | 0 <= i < 64 ::
                  old(slots[i]).platform.ref != 0 && old(slots[i]).platform.owner == p.owner)
      ensures code == RESOURCE_LIMIT ==> forall i | 0 <= i < 64 :: old(slots[i]).platform.ref != 0
      ensures code != 0 ==> slots[..] == old(slots[..])
      ensures code == 0 ==> at < 64 && old(slots[at]).platform.ref == 0
      ensures code == 0 ==> at < 64 && slots[..] == old(slots[..])[at := Occupied(p)]
      ensures code == 0 ==> forall i | 0 <= i < at :: old(slots[i]).platform.ref != 0
    {
      at := 0;
      if p.owner == 0 || (p.kind != 1 && p.kind != 2) || !tableValid {
        return 0, INVALID_ARGUMENT;
      }
      var free := 64;
      var i := 0;
      while i < 64
        invariant 0 <= i <= 64
        invariant forall j | 0 <= j < i :: slots[j].platform.ref == 0 || slots[j].platform.owner != p.owner
        invariant free == 64 || (free < i && slots[free].platform.ref == 0)
        invariant forall j | 0 <= j < i && j < free :: slots[j].platform.ref != 0
        invariant slots[..] == old(slots[..])
      {
        if slots[i].platform.ref != 0 && slots[i].platform.owner == p.owner {
          return 0, STATE_CORRUPT;
        }
        if slots[i].platform.ref == 0 && free == 64 {
          free := i;
        }
        i := i + 1;
      }
      if free == 64 {
        return 0, RESOURCE_LIMIT;
      }
      slots[free] := Occupied(p);
      return free, 0;
    }

    method FindOwner(owner: nat) returns (at: nat)
      requires Valid()
      ensures at == OwnedAt(slots[..], owner)
    {
      at := 0;
      while at < 64
        invariant 0 <= at <= 64
        invariant forall j | 0 <= j < at :: slots[j].platform.ref == 0 || slots[j].platform.owner != owner
      {
        if slots[at].platform.ref != 0 && slots[at].platform.owner == owner {
          break;
        }
        at := at + 1;
      }
      OwnedAtIs(slots[..], owner, at);
    }

    method FailPlatform(at: nat, p: nat)
      requires Valid()
      modifies slots
      ensures slots[..] == if at < 64 then old(slots[..])[at := Fail(old(slots[at]), p)] else old(slots[..])
      ensures at < 64 && p != 0 && old(slots[at]).platform.ref == p ==>
                var f := old(slots[at]).flags;
                slots[at].flags == Flags(f.busy, true, if f.failure == 0 then 25 else f.failure)
      ensures !(at < 64 && p != 0 && old(slots[at]).platform.ref == p) ==> slots[..] == old(slots[..])
    {
      if at < 64 && p != 0 && slots[at].platform.ref == p {
        var f := slots[at].flags.(terminal := true);
        if f.failure == 0 {
          f := f.(failure := STATE_CORRUPT);
        }
        slots[at] := slots[at].(flags := f);
      }
    }

    method BeginOperation(at: nat, p: nat, cleanup: bool) returns (ok: bool)
      requires Valid()
      modifies slots
      ensures ok == (at < 64 && if cleanup then MayBeginCleanup(old(slots[at]), p) else MayBegin(old(slots[at]), p))
      ensures slots[..] == if ok then old(slots[..])[at := Begin(old(slots[at]))] else old(slots[..])
      ensures ok <==>
                && at < 64 && p != 0 && old(slots[at]).platform.ref == p && !old(slots[at]).flags.busy
                && (cleanup || (!old(slots[at]).flags.terminal && old(slots[at]).flags.failure == 0))
      ensures ok ==> slots[at] == old(slots[at]).(flags := old(slots[at]).flags.(busy := true))
    {
      if at >= 64 || p == 0 || slots[at].platform.ref != p || slots[at].flags.busy {
        return false;
      }
      if !cleanup && (slots[at].flags.terminal || slots[at].flags.failure != 0) {
        return false;
      }
      slots[at] := slots[at].(flags := slots[at].flags.(busy := true));
      return true;
    }

    method EndOperation(at: nat, p: nat)
      requires Valid()
      modifies slots
      ensures slots[..] == if at < 64 then old(slots[..])[at := End(old(slots[at]), p)] else old(slots[..])
      ensures at < 64 && p != 0 && old(slots[at]).platform.ref == p ==>
                !slots[at].flags.busy && slots[at].work.staging == 0 && slots[at].work.call == old(slots[at]).work.call
    {
      if at < 64 && p != 0 && slots[at].platform.ref == p {
        slots[at] := slots[at].(flags := slots[at].flags.(busy := false), work := slots[at].work.(staging := 0));
      }
    }

    /** The first section of closeOwnedV1; only a bare slot goes on to the platform. */
    method FinalizeClaim(at: nat, p: nat) returns (claimed: bool)
      requires Valid()
      modifies slots
      ensures claimed == (at < 64 && Mine(old(slots[at]), p) && Bare(old(slots[at])))
      ensures claimed <==>
                && at < 64 && p != 0 && old(slots[at]).platform.ref == p
                && var s := old(slots[at]);
                   && !s.flags.busy && s.flags.failure == 0 && s.work.staging == 0 && s.work.call == 0
                   && s.held.revision == 0 && s.held.publication == 0 && s.held.transport == 0
                   && s.current.id == 0 && s.loss.id == 0
      ensures claimed ==> slots[at].flags == Flags(true, true, 0)
      ensures at < 64 && p != 0 && old(slots[at]).platform.ref == p && !claimed ==>
                slots[at].flags == Flags(old(slots[at]).flags.busy, true, 25)
      ensures slots[..] == if at < 64 && Mine(old(slots[at]), p)
              then old(slots[..])[at := FinalizeBegin(old(slots[at]))]
                           else old(slots[..])
    {
      if at >= 64 || p == 0 || slots[at].platform.ref != p {
        return false;
      }
      var s := slots[at];
      var invalid := s.flags.busy || s.flags.failure != 0 || s.work.staging != 0 || s.work.call != 0 ||
        s.held.revision != 0 || s.held.publication != 0 || s.held.transport != 0 ||
        s.current.id != 0 || s.loss.id != 0;
      if invalid {
        slots[at] := s.(flags := s.flags.(terminal := true, failure := STATE_CORRUPT));
        return false;
      }
      slots[at] := s.(flags := s.flags.(busy := true, terminal := true));
      return true;
    }

    /** Its second section: success empties the slot, anything else marks it. */
    method FinalizeSettle(at: nat, p: nat, answer: nat) returns (code: nat)
      requires Valid() && at < 64
      modifies slots
      ensures slots[..] == old(slots[..])[at := FinalizeEnd(old(slots[at]), p, answer)]
      ensures code == 0 <==> FinalizeSucceeds(old(slots[at]), p, answer)
      ensures code == 0 <==>
                answer == 0 && p != 0 && old(slots[at]).platform.ref == p && old(slots[at]).flags.failure == 0
      ensures code != 0 && p != 0 && old(slots[at]).platform.ref == p ==>
                !slots[at].flags.busy && slots[at].flags.failure == 25 && slots[at].platform == old(slots[at]).platform
      ensures code == 0 ==> slots[at] == EMPTY
    {
      code := answer;
      var mine := p != 0 && slots[at].platform.ref == p;
      if answer == 0 && mine && slots[at].flags.failure == 0 {
        slots[at] := EMPTY;
      } else {
        code := STATE_CORRUPT;
        if mine {
          slots[at] := slots[at].(flags := slots[at].flags.(busy := false, failure := STATE_CORRUPT));
        }
      }
    }

    /** Takes the next identifier, or exhausts the slot; identifiers are never handed out twice. */
    method ReserveRevisionSignal(at: nat, p: nat, epoch: nat) returns (id: nat, code: nat)
      requires Valid() && at < 64
      modifies this, slots
      ensures Valid()
      ensures !MayReserveRevision(old(slots[at]), p, epoch) ==>
                code == STATE_CORRUPT && id == 0 && next == old(next) && slots[..] == old(slots[..])
      ensures MayReserveRevision(old(slots[at]), p, epoch) && old(next) == MAX_ID ==>
                code == RESOURCE_LIMIT && next == old(next)
                    && slots[..] == old(slots[..])[at := Exhausted(old(slots[at]))]
      ensures MayReserveRevision(old(slots[at]), p, epoch) && old(next) < MAX_ID ==>
                code == 0 && id == next == old(next) + 1 &&
                slots[..] == old(slots[..])[at := ReserveRevision(old(slots[at]), id, epoch)]
      ensures code == 0 <==>
                var s := old(slots[at]);
                && p != 0 && s.platform.ref == p && !s.flags.terminal && s.flags.failure == 0 && epoch != 0
                && s.current.id == 0 && old(next) < 0xFFFF_FFFF_FFFF_FFFF
      ensures code == 0 ==> id == old(next) + 1 && slots[at].current == Signal(id, 1, epoch, 0, false, false, false)
    {
      var s := slots[at];
      if p == 0 || s.platform.ref != p || s.flags.terminal || s.flags.failure != 0 || epoch == 0 || s.current.id != 0 {
        return 0, STATE_CORRUPT;
      }
      if next == MAX_ID {
        slots[at] := s.(flags := s.flags.(terminal := true, failure := RESOURCE_LIMIT));
        return 0, RESOURCE_LIMIT;
      }
      next := next + 1;
      slots[at] := s.(current := Signal(next, 1, epoch, 0, false, false, false));
      return next, 0;
    }

    method ReserveLossSignal(at: nat, p: nat, kind: nat, epoch: nat, attempt: nat) returns (id: nat, code: nat)
      requires Valid() && at < 64
      modifies this, slots
      ensures Valid()
      ensures !MayReserveLoss(old(slots[at]), p, kind, epoch, attempt) ==>
                code == STATE_CORRUPT && id == 0 && next == old(next) && slots[..] == old(slots[..])
      ensures MayReserveLoss(old(slots[at]), p, kind, epoch, attempt) && old(next) == MAX_ID ==>
                code == RESOURCE_LIMIT && next == old(next)
                    && slots[..] == old(slots[..])[at := Exhausted(old(slots[at]))]
      ensures MayReserveLoss(old(slots[at]), p, kind, epoch, attempt) && old(next) < MAX_ID ==>
                code == 0 && id == next == old(next) + 1 &&
                slots[..] == old(slots[..])[at := ReserveLoss(old(slots[at]), id, kind, epoch, attempt)]
      ensures code == 0 <==>
                var s := old(slots[at]);
                && p != 0 && s.platform.ref == p && !s.flags.terminal && s.flags.failure == 0 && epoch != 0
                && s.held.transport == 0 && s.loss.id == 0 && old(next) < 0xFFFF_FFFF_FFFF_FFFF
                && ((kind == 2 && s.platform.kind == 1 && attempt != 0) || (kind == 3 && s.platform.kind == 2))
      ensures code == 0 ==>
                id == old(next) + 1 && slots[at].loss == Signal(id, kind, epoch, attempt, true, false, false)
    {
      var s := slots[at];
      if p == 0 || s.platform.ref != p || s.flags.terminal || s.flags.failure != 0 || s.held.transport != 0 ||
         s.loss.id != 0 || epoch == 0 || (kind == 2 && (s.platform.kind != 1 || attempt == 0)) ||
         (kind == 3 && s.platform.kind != 2) || (kind != 2 && kind != 3)
      {
        return 0, STATE_CORRUPT;
      }
      if next == MAX_ID {
        slots[at] := s.(flags := s.flags.(terminal := true, failure := RESOURCE_LIMIT));
        return 0, RESOURCE_LIMIT;
      }
      next := next + 1;
      slots[at] := s.(loss := Signal(next, kind, epoch, attempt, true, false, false));
      return next, 0;
    }

    /** androidLossSignalV1; `closes` says the loss channel is closed by this very call. */
    method LossArrives(owner: nat, id: nat, kind: nat) returns (closes: bool, code: nat)
      requires Valid()
      modifies slots
      ensures code == 0 <==>
                var i := OwnedAt(old(slots[..]), owner);
                owner != 0 && i < 64 && LossAddressed(old(slots[..])[i], id, kind)
      ensures code == 0 ==> closes == !old(slots[..])[OwnedAt(old(slots[..]), owner)].loss.fired
      ensures code == 0 ==>
                var i := OwnedAt(old(slots[..]), owner);
                slots[..] == old(slots[..])[i := Lose(old(slots[..])[i])]
      ensures code != 0 ==> !closes && slots[..] == old(slots[..])
      ensures code == 0 ==>
                var i := OwnedAt(old(slots[..]), owner);
                var loss := old(slots[..])[i].loss;
                loss.id == id != 0 && loss.kind == kind && kind in {2, 3} && loss.channel && slots[i].loss.fired
      ensures owner != 0 && OwnedAt(old(slots[..]), owner) < 64 && code != 0 ==>
                var loss := old(slots[..])[OwnedAt(old(slots[..]), owner)].loss;
                !(loss.id == id != 0 && loss.kind == kind && kind in {2, 3} && loss.channel)
    {
      closes := false;
      if owner == 0 || id == 0 || (kind != 2 && kind != 3) {
        return false, STATE_CORRUPT;
      }
      var i := FindOwner(owner);
      if i == 64 {
        return false, STATE_CORRUPT;
      }
      var signal := slots[i].loss;
      if signal.id != id || signal.kind != kind || !signal.channel {
        return false, STATE_CORRUPT;
      }
      if !signal.fired {
        slots[i] := slots[i].(loss := signal.(fired := true));
        closes := true;
      }
      return closes, 0;
    }

    /** The first section of androidRevisionSignalV1; a second delivery fails the slot. */
    method InvalidationArrives(owner: nat, id: nat) returns (sink: bool, code: nat)
      requires Valid()
      modifies slots
      ensures var i := OwnedAt(old(slots[..]), owner);
              if i < 64 && RevisionAddressed(old(slots[..])[i], id)
              then slots[..] == old(slots[..])[i := Invalidate(old(slots[..])[i])]
                  && sink == SinkReady(old(slots[..])[i])
              else slots[..] == old(slots[..]) && !sink
      ensures sink <==> code == 0
      ensures sink <==>
                var i := OwnedAt(old(slots[..]), owner);
                && i < 64 && id != 0 && old(slots[..])[i].current.id == id && old(slots[..])[i].current.kind == 1
                && !old(slots[..])[i].current.running && !old(slots[..])[i].current.fired
      ensures var i := OwnedAt(old(slots[..]), owner);
              i < 64 && id != 0 && old(slots[..])[i].current.id == id && old(slots[..])[i].current.kind == 1 ==>
                && slots[i].flags.terminal
                && (sink ==> slots[i].current.running && slots[i].flags.failure == old(slots[..])[i].flags.failure)
                && (!sink ==> slots[i].flags.failure != 0)
    {
      var i := FindOwner(owner);
      if i == 64 || id == 0 || slots[i].current.id != id || slots[i].current.kind != 1 {
        return false, STATE_CORRUPT;
      }
      var s := slots[i];
      if s.current.running || s.current.fired {
        var failure := if s.flags.failure == 0 then STATE_CORRUPT else s.flags.failure;
        slots[i] := s.(flags := s.flags.(terminal := true, failure := failure));
        return false, STATE_CORRUPT;
      }
      slots[i] := s.(flags := s.flags.(terminal := true), current := s.current.(running := true));
      return true, 0;
    }

    /** Its second section, once the sink has returned. */
    method SinkSettles(at: nat, answer: nat) returns (code: nat)
      requires Valid() && at < 64
      modifies slots
      ensures slots[..] == old(slots[..])[at := SinkEnd(old(slots[at]), answer)]
      ensures code == slots[at].flags.failure || (slots[at].flags.failure == 0 && code == 0)
      ensures !slots[at].current.running && slots[at].current.fired
      ensures slots[at].flags.failure ==
                if old(slots[at]).flags.failure != 0 then old(slots[at]).flags.failure
                else if answer > 25 then 25 else answer
    {
      code := answer;
      if code > 25 {
        code := STATE_CORRUPT;
      }
      var s := slots[at];
      var f := s.flags;
      if code != 0 && f.failure == 0 {
        f := f.(failure := code);
      }
      slots[at] := s.(current := s.current.(running := false, fired := true), flags := f);
      if f.failure != 0 {
        code := f.failure;
      }
    }

    /** The section of withCallV1 that registers its call. */
    method RegisterCall(at: nat) returns (id: nat)
      requires Valid() && at < 64
      modifies this, slots
      ensures Valid() && (id == 0 <==> old(next) == MAX_ID)
      ensures id == 0 ==> next == old(next) && slots[..] == old(slots[..])[at := Exhausted(old(slots[at]))]
      ensures id != 0 ==> id == next == old(next) + 1
      ensures id != 0 ==> slots[..] == old(slots[..])[at := CallBegin(old(slots[at]), id)]
    {
      var s := slots[at];
      if next == MAX_ID {
        slots[at] := s.(flags := s.flags.(terminal := true, failure := RESOURCE_LIMIT));
        return 0;
      }
      next := next + 1;
      slots[at] := s.(work := s.work.(call := next));
      return next;
    }

    method ClearCall(at: nat, id: nat) returns (found: bool)
      requires Valid() && at < 64
      modifies slots
      ensures found == (old(slots[at]).work.call == id)
              && slots[..] == old(slots[..])[at := CallClear(old(slots[at]), id)]
    {
      found := slots[at].work.call == id;
      if found {
        slots[at] := slots[at].(work := slots[at].work.(call := 0));
      }
    }

    method StageBytes(at: nat, total: nat)
      requires Valid() && at < 64
      modifies slots
      ensures slots[..] == old(slots[..])[at := Stage(old(slots[at]), total)]
    {
      slots[at] := slots[at].(work := slots[at].work.(staging := total));
    }

    /** A granted child is taken over before its status is looked at. */
    method AdoptChild(at: nat, kind: ChildKind, ref: nat)
      requires Valid() && at < 64
      modifies slots
      ensures slots[..] == old(slots[..])[at := Adopt(old(slots[at]), kind, ref)]
    {
      var h := slots[at].held;
      match kind {
        case Revision => h := h.(revision := ref);
        case Publication => h := h.(publication := ref);
        case Transport => h := h.(transport := ref);
      }
      slots[at] := slots[at].(held := h);
    }

    /** The second section of a child's close; `closes` says the loss channel is closed by this call. */
    method CommitChildClose(at: nat, p: nat, kind: ChildKind, answer: nat) returns (ok: bool, closes: bool)
      requires Valid() && at < 64
      modifies slots
      ensures ok == CloseSucceeds(old(slots[at]), p, kind, answer == 0)
      ensures closes == (ok && kind == Transport && !old(slots[at]).loss.fired)
      ensures slots[..] == old(slots[..])[at := CloseCommit(old(slots[at]), p, kind, answer == 0)]
      ensures ok <==>
                && answer == 0 && p != 0 && old(slots[at]).platform.ref == p && old(slots[at]).flags.failure == 0
                && !(kind == Revision && old(slots[at]).current.running)
      ensures ok ==>
                var before, after := old(slots[at]), slots[at];
                match kind
                case Revision =>
                  after.held == before.held.(revision := 0) && after.current.id == 0 && after.flags.terminal
                case Publication => after == before.(held := before.held.(publication := 0))
                case Transport =>
                  after == before.(held := before.held.(transport := 0), loss := after.loss) && after.loss.id == 0
      ensures !ok && p != 0 && old(slots[at]).platform.ref == p ==>
                slots[at].flags.terminal && slots[at].flags.failure != 0 && slots[at].held == old(slots[at]).held
    {
      var s := slots[at];
      var mine := p != 0 && s.platform.ref == p;
      if answer != 0 || !mine || s.flags.failure != 0 || (kind == Revision && s.current.running) {
        if mine {
          var f := s.flags.(terminal := true);
          if f.failure == 0 {
            f := f.(failure := STATE_CORRUPT);
          }
          slots[at] := s.(flags := f);
        }
        return false, false;
      }
      closes := false;
      match kind {
        case Revision =>
          slots[at] := s.(held := s.held.(revision := 0), current := NO_SIGNAL, flags := s.flags.(terminal := true));
        case Publication =>
          slots[at] := s.(held := s.held.(publication := 0));
        case Transport =>
          closes := !s.loss.fired;
          slots[at] := s.(held := s.held.(transport := 0), loss := NO_SIGNAL);
      }
      ok := true;
    }
  }
}

/**
 One slot of the Android platform registry and the sections of code that run on it
 under the registry lock. References to Go objects are positive numbers and zero is
 nil; identifiers come from the registry's single counter, and identifier zero marks
 an empty signal entry or no call in flight.
 */
module PlatformSlot {
  import opened Options

  const STATE_CORRUPT: nat := 25
  const RESOURCE_LIMIT: nat := 24
  const MAX_ID: nat := 0xFFFF_FFFF_FFFF_FFFF
  const STAGING_LIMIT: nat := 2721543

  /** A signal entry. `channel` says a loss channel was made for it; `fired` that the loss was
      delivered, or that an invalidation sink has run. */
  datatype Signal = Signal(id: nat, kind: nat, epoch: nat, attempt: nat, channel: bool, running: bool, fired: bool)

  const NO_SIGNAL: Signal := Signal(0, 0, 0, 0, false, false, false)

  /** The platform object that occupies the slot; pointer identity is `ref`. */
  datatype Platform = Platform(ref: nat, owner: nat, kind: nat)

  const NO_PLATFORM: Platform := Platform(0, 0, 0)

  datatype Flags = Flags(busy: bool, terminal: bool, failure: nat)

  /** The one operation in flight: staged capture bytes and the registered call. */
  datatype Work = Work(staging: nat, call: nat)

  /** The registered children, by reference. */
  datatype Held = Held(revision: nat, publication: nat, transport: nat)

  datatype Slot = Slot(platform: Platform, flags: Flags, work: Work, held: Held, current: Signal, loss: Signal)

  const EMPTY: Slot := Slot(NO_PLATFORM, Flags(false, false, 0), Work(0, 0), Held(0, 0, 0), NO_SIGNAL, NO_SIGNAL)

  function Occupied(p: Platform): Slot { EMPTY.(platform := p) }

  /** stateV1 found the state: the wrapper still names the platform in its slot. */
  predicate Mine(s: Slot, p: nat) { p != 0 && s.platform.ref == p }

  predicate Live(s: Slot) { !s.flags.terminal && s.flags.failure == 0 }

  // ----- failure -----

  function Corrupt(f: Flags): Flags {
    f.(terminal := true, failure := if f.failure == 0 then STATE_CORRUPT else f.failure)
  }

  function Fail(s: Slot, p: nat): Slot { if Mine(s, p) then s.(flags := Corrupt(s.flags)) else s }

  // ----- the busy bit -----

  predicate MayBegin(s: Slot, p: nat) { Mine(s, p) && !s.flags.busy && Live(s) }

  predicate MayBeginCleanup(s: Slot, p: nat) { Mine(s, p) && !s.flags.busy }

  function Begin(s: Slot): Slot { s.(flags := s.flags.(busy := true)) }

  function End(s: Slot, p: nat): Slot {
    if Mine(s, p) then s.(flags := s.flags.(busy := false), work := s.work.(staging := 0)) else s
  }

  // ----- finalization -----

  /** Nothing is left that would forbid giving the slot away. */
  predicate Bare(s: Slot) {
    && !s.flags.busy && s.flags.failure == 0 && s.work == Work(0, 0) && s.held == Held(0, 0, 0)
    && s.current.id == 0 && s.loss.id == 0
  }

  function FinalizeBegin(s: Slot): Slot {
    if Bare(s) then s.(flags := s.flags.(busy := true, terminal := true))
    else s.(flags := s.flags.(terminal := true, failure := STATE_CORRUPT))
  }

  predicate FinalizeSucceeds(s: Slot, p: nat, result: nat) { result == 0 && Mine(s, p) && s.flags.failure == 0 }

  function FinalizeEnd(s: Slot, p: nat, result: nat): Slot {
    if FinalizeSucceeds(s, p, result) then EMPTY
    else if Mine(s, p) then s.(flags := s.flags.(busy := false, failure := STATE_CORRUPT))
    else s
  }

  // ----- calls and captures -----

  function Exhausted(s: Slot): Slot { s.(flags := s.flags.(terminal := true, failure := RESOURCE_LIMIT)) }

  function CallBegin(s: Slot, id: nat): Slot { s.(work := s.work.(call := id)) }

  function CallClear(s: Slot, id: nat): Slot { if s.work.call == id then s.(work := s.work.(call := 0)) else s }

  function Stage(s: Slot, total: nat): Slot { s.(work := s.work.(staging := total)) }

  // ----- signals -----

  predicate MayReserveRevision(s: Slot, p: nat, epoch: nat) {
    Mine(s, p) && Live(s) && epoch != 0 && s.current.id == 0
  }

  function ReserveRevision(s: Slot, id: nat, epoch: nat): Slot {
    s.(current := Signal(id, 1, epoch, 0, false, false, false))
  }

  predicate MayReserveLoss(s: Slot, p: nat, kind: nat, epoch: nat, attempt: nat) {
    && Mine(s, p) && Live(s) && s.held.transport == 0 && s.loss.id == 0 && epoch != 0
    && ((kind == 2 && s.platform.kind == 1 && attempt != 0) || (kind == 3 && s.platform.kind == 2))
  }

  function ReserveLoss(s: Slot, id: nat, kind: nat, epoch: nat, attempt: nat): Slot {
    s.(loss := Signal(id, kind, epoch, attempt, true, false, false))
  }

  predicate LossAddressed(s: Slot, id: nat, kind: nat) {
    id != 0 && (kind == 2 || kind == 3) && s.loss.id == id && s.loss.kind == kind && s.loss.channel
  }

  function Lose(s: Slot): Slot { s.(loss := s.loss.(fired := true)) }

  predicate RevisionAddressed(s: Slot, id: nat) { id != 0 && s.current.id == id && s.current.kind == 1 }

  /** The sink may run: the entry is neither running nor spent. */
  predicate SinkReady(s: Slot) { !s.current.running && !s.current.fired }

  function Invalidate(s: Slot): Slot {
    if SinkReady(s) then s.(flags := s.flags.(terminal := true), current := s.current.(running := true))
    else s.(flags := Corrupt(s.flags))
  }

  /** An answer outside the bridge's codes counts as corruption. */
  function SinkCode(answer: nat): nat { if answer > STATE_CORRUPT then STATE_CORRUPT else answer }

  function SinkEnd(s: Slot, answer: nat): Slot {
    s.(current := s.current.(running := false, fired := true),
       flags := s.flags.(failure := if s.flags.failure == 0 then SinkCode(answer) else s.flags.failure))
  }

  // ----- children -----

  datatype ChildKind = Revision | Publication | Transport

  function HeldRef(h: Held, kind: ChildKind): nat {
    match kind
    case Revision => h.revision
    case Publication => h.publication
    case Transport => h.transport
  }

  function Hold(h: Held, kind: ChildKind, ref: nat): Held {
    match kind
    case Revision => h.(revision := ref)
    case Publication => h.(publication := ref)
    case Transport => h.(transport := ref)
  }

  function Adopt(s: Slot, kind: ChildKind, ref: nat): Slot { s.(held := Hold(s.held, kind, ref)) }

  /** The second section of a child's close: what counts as success, and what it clears. */
  predicate CloseSucceeds(s: Slot, p: nat, kind: ChildKind, accepted: bool) {
    accepted && Mine(s, p) && s.flags.failure == 0 && (kind == Revision ==> !s.current.running)
  }

  function CloseCommit(s: Slot, p: nat, kind: ChildKind, accepted: bool): Slot {
    if CloseSucceeds(s, p, kind, accepted) then
      var freed := s.(held := Hold(s.held, kind, 0));
      match kind
      case Revision => freed.(current := NO_SIGNAL, flags := s.flags.(terminal := true))
      case Publication => freed
      case Transport => freed.(loss := NO_SIGNAL)
    else Fail(s, p)
  }
}

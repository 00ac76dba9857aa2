/**
 Bootstrap framing over a byte memory. Spans are checked and proved disjoint before any
 write; the two binding calls then copy their inputs, ask the authority reader, and write
 declared prefixes. The reader, which sees only the copied inputs, is a parameter and may
 refuse or panic. Addresses are 64-bit and `uintptr` addition wraps.
 */
module BootstrapBinding {
  import opened ByteBuffer

  const WORD: nat := 0x1_0000_0000_0000_0000
  const MAX_ADDRESS: nat := 0xFFFF_FFFF_FFFF_FFFF

  /** A pointer and a length as the caller passed them; pointer zero is nil. */
  datatype Span = Span(pointer: nat, length: nat)

  predicate InRange(s: Span) { s.pointer <= MAX_ADDRESS && s.length <= 0xFFFF_FFFF }

  predicate Valid(s: Span) { s.pointer != 0 && s.length > 0 && s.length <= MAX_ADDRESS - s.pointer }

  function Add64(a: nat, b: nat): nat { (a + b) % WORD }

  /** Two ranges share no address, in unbounded arithmetic. */
  predicate Apart(a: Span, b: Span) { a.pointer + a.length <= b.pointer || b.pointer + b.length <= a.pointer }

  predicate Disjoint(spans: seq<Span>) {
    && (forall i | 0 <= i < |spans| :: Valid(spans[i]))
    && (forall i, j | 0 <= j < i < |spans| :: Apart(spans[i], spans[j]))
  }

  /** The source's nested loop over wrapping sums decides exactly the unbounded property. */
  method SpansDisjoint(spans: seq<Span>) returns (ok: bool)
    requires forall i | 0 <= i < |spans| :: InRange(spans[i])
    ensures ok <==> Disjoint(spans)
  {
    var i := 0;
    while i < |spans|
      invariant 0 <= i <= |spans|
      invariant forall k | 0 <= k < i :: Valid(spans[k])
      invariant forall k, j | 0 <= j < k < i :: Apart(spans[k], spans[j])
    {
      var s := spans[i];
      if s.pointer == 0 || s.length == 0 || s.length > MAX_ADDRESS - s.pointer {
        return false;
      }
      var j := 0;
      while j < i
        invariant 0 <= j <= i
        invariant forall k | 0 <= k < j :: Apart(s, spans[k])
      {
        var other := spans[j];
        if s.pointer < Add64(other.pointer, other.length) && other.pointer < Add64(s.pointer, s.length) {
          assert !Apart(spans[i], spans[j]);
          return false;
        }
        j := j + 1;
      }
      i := i + 1;
    }
    return true;
  }

  // ----- inputs -----

  const LEGACY_MAXIMA: seq<nat> := [1405996, 1118299, 512, 128, 16777]
  const PRODUCTION_MAXIMA: seq<nat> := [1405996, 1118299, 512, 128, 196608]

  /** The first input out of order decides: 2 for an unusable span, 4 for an oversized one. */
  predicate InputGood(s: Span, max: nat) { Valid(s) && s.length <= max }

  method InputsStatus(inputs: seq<Span>, maxima: seq<nat>) returns (status: int)
    requires |inputs| == |maxima| == 5
    ensures status == 0 <==> forall i | 0 <= i < 5 :: InputGood(inputs[i], maxima[i])
    ensures status != 0 ==> exists i | 0 <= i < 5 ::
              && (forall k | 0 <= k < i :: InputGood(inputs[k], maxima[k]))
              && !InputGood(inputs[i], maxima[i]) && status == if Valid(inputs[i]) then 4 else 2
    ensures status == InputsVerdict(inputs, maxima)
  {
    var i := 0;
    while i < 5
      invariant 0 <= i <= 5
      invariant forall k | 0 <= k < i :: InputGood(inputs[k], maxima[k])
      invariant InputsVerdict(inputs, maxima) == InputsVerdict(inputs[i..], maxima[i..])
    {
      if !Valid(inputs[i]) {
        return 2;
      }
      if inputs[i].length > maxima[i] {
        return 4;
      }
      assert inputs[i..][1..] == inputs[i + 1..] && maxima[i..][1..] == maxima[i + 1..];
      i := i + 1;
    }
    return 0;
  }

  function InputsVerdict(inputs: seq<Span>, maxima: seq<nat>): int
    requires |inputs| == |maxima|
  {
    if inputs == [] then 0
    else if !Valid(inputs[0]) then 2
    else if inputs[0].length > maxima[0] then 4
    else InputsVerdict(inputs[1..], maxima[1..])
  }

  function Bytes(m: seq<Byte>, s: Span): seq<Byte>
    requires Valid(s) && |m| == WORD
  {
    m[s.pointer..s.pointer + s.length]
  }

  function Owned(m: seq<Byte>, inputs: seq<Span>): (b: seq<seq<Byte>>)
    requires |m| == WORD && forall i | 0 <= i < |inputs| :: Valid(inputs[i])
    ensures |b| == |inputs|
  {
    seq(|inputs|, i requires 0 <= i < |inputs| => Bytes(m, inputs[i]))
  }

  // ----- legacy binding -----

  datatype LegacyFacts = LegacyFacts(generation: nat, digest: seq<Byte>, retry: Byte)

  datatype LegacyReading = LegacyPanic | BadPolicy | LegacyRefused(code: int) | LegacyRead(facts: LegacyFacts)

  predicate LegacyWell(r: LegacyReading) {
    && (r.LegacyRefused? ==> r.code != 0)
    && (r.LegacyRead? ==> r.facts.generation <= MAX_ADDRESS && |r.facts.digest| == 32)
  }

  type LegacyReader = f: seq<seq<Byte>> -> LegacyReading | forall b: seq<seq<Byte>> :: LegacyWell(f(b))
    witness (b: seq<seq<Byte>>) => LegacyPanic

  function LegacyWire(f: LegacyFacts): (w: seq<Byte>)
    requires |f.digest| == 32
    ensures |w| == 41
  {
    BigEndian(f.generation, 8) + f.digest + [f.retry]
  }

  /** The verdict before anything is read: 1 invalid argument, 2 size limit. */
  function LegacyCheck(inputs: seq<Span>, output: Span): int
    requires |inputs| == 5
  {
    if !Valid(output) then 1
    else if output.length < 41 then 2
    else if InputsVerdict(inputs, LEGACY_MAXIMA) == 4 then 2
    else if InputsVerdict(inputs, LEGACY_MAXIMA) != 0 then 1
    else if !Disjoint(inputs + [output]) then 1
    else 0
  }

  /** On any failure no byte changes; on success exactly the 41-byte prefix of the output does. */
  method LegacyBinding(mem: array<Byte>, inputs: seq<Span>, output: Span, read: LegacyReader)
    returns (status: int)
    requires mem.Length == WORD && |inputs| == 5 && InRange(output)
    requires forall i | 0 <= i < 5 :: InRange(inputs[i])
    modifies mem
    ensures LegacyCheck(inputs, output) != 0 ==> status == LegacyCheck(inputs, output)
    ensures LegacyCheck(inputs, output) == 0 ==>
              && (forall i | 0 <= i < 5 :: Valid(inputs[i]))
              && match read(Owned(old(mem[..]), inputs))
                 case LegacyPanic => status == 14
                 case BadPolicy => status == 1
                 case LegacyRefused(code) => status == code != 0
                 case LegacyRead(_) => status == 0
    ensures status != 0 ==> mem[..] == old(mem[..])
    ensures status == 0 ==>
              && LegacyCheck(inputs, output) == 0 && (forall i | 0 <= i < 5 :: Valid(inputs[i]))
              && read(Owned(old(mem[..]), inputs)).LegacyRead? && LegacyWell(read(Owned(old(mem[..]), inputs)))
              && mem[..] == Put(old(mem[..]), output.pointer, LegacyWire(read(Owned(old(mem[..]), inputs)).facts))
  {
    if !Valid(output) {
      return 1;
    }
    if output.length < 41 {
      return 2;
    }
    var s := InputsStatus(inputs, LEGACY_MAXIMA);
    if s != 0 {
      return if s == 4 then 2 else 1;
    }
    var spans := inputs + [output];
    var apart := SpansDisjoint(spans);
    if !apart {
      return 1;
    }
    assert forall i | 0 <= i < 5 :: inputs[i] == spans[i];
    var reading := read(Owned(mem[..], inputs));
    match reading
    case LegacyPanic => return 14;
    case BadPolicy => return 1;
    case LegacyRefused(code) => return code;
    case LegacyRead(facts) =>
      CopyInto(mem, output.pointer, LegacyWire(facts));
      return 0;
  }

  // ----- production binding -----

  datatype ProductionFacts = ProductionFacts(generation: nat, digest: seq<Byte>, mtu: nat, retry: Byte, reconnect: Byte)

  /** What the reader leaves: facts, two 512-byte staging buffers and how much of each it used. */
  datatype Reading =
    | Panicked
    | Refused(status: int)
    | Read(facts: ProductionFacts, active: seq<Byte>, disconnected: seq<Byte>, a: int, d: int)

  predicate Well(r: Reading) {
    && (r.Refused? ==> r.status != 0)
    && (r.Read? ==> |r.active| == 512 && |r.disconnected| == 512 && |r.facts.digest| == 32 &&
                    r.facts.generation <= MAX_ADDRESS && r.facts.mtu < 65536)
  }

  type Reader = f: seq<seq<Byte>> -> Reading | forall b: seq<seq<Byte>> :: Well(f(b))
    witness (b: seq<seq<Byte>>) => Panicked

  predicate LengthsFit(r: Reading)
    requires r.Read?
  {
    54 <= r.a <= 512 && 54 <= r.d <= 512
  }

  function Wire(f: ProductionFacts): (w: seq<Byte>)
    requires |f.digest| == 32
    ensures |w| == 44
  {
    BigEndian(f.generation, 8) + f.digest + BigEndian(f.mtu, 2) + [f.retry] + [f.reconnect]
  }

  datatype Outputs = Outputs(output: Span, active: Span, disconnected: Span, activeWord: nat, disconnectedWord: nat)

  function OutputSpans(o: Outputs): seq<Span> {
    [o.output, o.active, o.disconnected, Span(o.activeWord, 4), Span(o.disconnectedWord, 4)]
  }

  predicate Aligned(o: Outputs) {
    o.activeWord != 0 && o.disconnectedWord != 0 && o.activeWord % 4 == 0 && o.disconnectedWord % 4 == 0
  }

  /** The verdict before anything is written or read: 2 for a bad argument, 4 for a size limit. */
  function ProductionCheck(inputs: seq<Span>, o: Outputs): int
    requires |inputs| == 5
  {
    if !Aligned(o) || !Disjoint(OutputSpans(o)) then 2
    else if o.output.length < 44 || o.active.length < 512 || o.disconnected.length < 512 then 4
    else if InputsVerdict(inputs, PRODUCTION_MAXIMA) != 0 then InputsVerdict(inputs, PRODUCTION_MAXIMA)
    else if !Disjoint(inputs + OutputSpans(o)) then 2
    else 0
  }

  lemma CheckedSpans(inputs: seq<Span>, o: Outputs)
    requires |inputs| == 5 && ProductionCheck(inputs, o) == 0
    ensures forall i | 0 <= i < 5 :: Valid(inputs[i])
    ensures forall i | 0 <= i < 5 :: Valid(OutputSpans(o)[i])
    ensures forall i, j | 0 <= i < 5 && 0 <= j < 5 :: Apart(inputs[i], OutputSpans(o)[j])
    ensures forall i, j | 0 <= j < i < 5 :: Apart(OutputSpans(o)[i], OutputSpans(o)[j])
  {
    var spans := inputs + OutputSpans(o);
    forall i | 0 <= i < 5
      ensures Valid(inputs[i])
    {
      assert Valid(spans[i]);
    }
    forall i, j | 0 <= i < 5 && 0 <= j < 5
      ensures Apart(inputs[i], OutputSpans(o)[j])
    {
      assert Apart(spans[5 + j], spans[i]);
    }
  }

  /** The memory once both length words are zeroed, and once everything is written. */
  function Zeroed(m: seq<Byte>, o: Outputs): (m': seq<Byte>)
    requires |m| == WORD && o.activeWord + 4 <= WORD && o.disconnectedWord + 4 <= WORD
    ensures |m'| == WORD
  {
    Put(Put(m, o.activeWord, [0, 0, 0, 0]), o.disconnectedWord, [0, 0, 0, 0])
  }

  predicate RoomFor(o: Outputs) {
    && o.output.pointer + 44 <= WORD && o.active.pointer + 512 <= WORD && o.disconnected.pointer + 512 <= WORD
    && o.activeWord + 4 <= WORD && o.disconnectedWord + 4 <= WORD
  }

  function Filled(m: seq<Byte>, o: Outputs, r: Reading): (m': seq<Byte>)
    requires |m| == WORD && RoomFor(o) && r.Read? && Well(r) && LengthsFit(r)
    ensures |m'| == WORD
  {
    var m1 := Put(m, o.output.pointer, Wire(r.facts));
    var m2 := Put(m1, o.active.pointer, r.active[..r.a]);
    var m3 := Put(m2, o.disconnected.pointer, r.disconnected[..r.d]);
    var m4 := Put(m3, o.activeWord, LittleEndian(r.a, 4));
    Put(m4, o.disconnectedWord, LittleEndian(r.d, 4))
  }

  lemma CheckedRoom(inputs: seq<Span>, o: Outputs)
    requires |inputs| == 5 && ProductionCheck(inputs, o) == 0
    ensures RoomFor(o) && forall i | 0 <= i < 5 :: Valid(inputs[i])
  {
    CheckedSpans(inputs, o);
    assert Valid(OutputSpans(o)[0]) && Valid(OutputSpans(o)[1]) && Valid(OutputSpans(o)[2]);
    assert Valid(OutputSpans(o)[3]) && Valid(OutputSpans(o)[4]);
  }

  method Fill(mem: array<Byte>, o: Outputs, r: Reading)
    requires mem.Length == WORD && RoomFor(o) && r.Read? && Well(r) && LengthsFit(r)
    modifies mem
    ensures mem[..] == Filled(old(mem[..]), o, r)
  {
    CopyInto(mem, o.output.pointer, Wire(r.facts));
    CopyInto(mem, o.active.pointer, r.active[..r.a]);
    CopyInto(mem, o.disconnected.pointer, r.disconnected[..r.d]);
    CopyInto(mem, o.activeWord, LittleEndian(r.a, 4));
    CopyInto(mem, o.disconnectedWord, LittleEndian(r.d, 4));
  }

  method ProductionBinding(mem: array<Byte>, inputs: seq<Span>, o: Outputs, read: Reader)
    returns (status: int)
    requires mem.Length == WORD && |inputs| == 5
    requires forall i | 0 <= i < 5 :: InRange(inputs[i]) && InRange(OutputSpans(o)[i])
    modifies mem
    ensures ProductionCheck(inputs, o) != 0 ==> status == ProductionCheck(inputs, o) && mem[..] == old(mem[..])
    ensures ProductionCheck(inputs, o) == 0 ==>
              && (forall i | 0 <= i < 5 :: Valid(inputs[i]))
              && RoomFor(o)
              && var r := read(Owned(Zeroed(old(mem[..]), o), inputs));
                 match r
                 case Panicked => status == 18 && mem[..] == Zeroed(old(mem[..]), o)
                 case Refused(s) => status == s && mem[..] == Zeroed(old(mem[..]), o)
                 case Read(_, _, _, _, _) =>
                   if 54 <= r.a <= 512 && 54 <= r.d <= 512
                   then status == 0 && mem[..] == Filled(Zeroed(old(mem[..]), o), o, r)
                   else status == 18 && mem[..] == Zeroed(old(mem[..]), o)
  {
    if o.activeWord == 0 || o.disconnectedWord == 0 || o.activeWord % 4 != 0 || o.disconnectedWord % 4 != 0 {
      return 2;
    }
    var outputs := OutputSpans(o);
    var apart := SpansDisjoint(outputs);
    if !apart {
      return 2;
    }
    if o.output.length < 44 || o.active.length < 512 || o.disconnected.length < 512 {
      return 4;
    }
    var s := InputsStatus(inputs, PRODUCTION_MAXIMA);
    if s != 0 {
      return s;
    }
    var spans := inputs + outputs;
    assert forall i | 0 <= i < 10 :: InRange(spans[i]);
    apart := SpansDisjoint(spans);
    if !apart {
      return 2;
    }
    CheckedRoom(inputs, o);
    CopyInto(mem, o.activeWord, [0, 0, 0, 0]);
    CopyInto(mem, o.disconnectedWord, [0, 0, 0, 0]);
    var reading := read(Owned(mem[..], inputs));
    match reading
    case Panicked => return 18;
    case Refused(code) => return code;
    case Read(facts, active, disconnected, a, d) =>
      if a < 54 || a > 512 || d < 54 || d > 512 {
        return 18;
      }
      Fill(mem, o, reading);
      return 0;
  }

  // ----- what the two writes mean -----

  /** A write outside a span leaves its bytes. */
  lemma PutApart(m: seq<Byte>, at: nat, data: seq<Byte>, s: Span)
    requires |m| == WORD && at + |data| <= WORD && Valid(s)
    requires at + |data| <= s.pointer || s.pointer + s.length <= at
    ensures Bytes(Put(m, at, data), s) == Bytes(m, s)
  {}

  /** Zeroing the two words touches nothing else, so the reader sees the caller's inputs. */
  lemma ZeroedOnly(m: seq<Byte>, inputs: seq<Span>, o: Outputs)
    requires |m| == WORD && |inputs| == 5 && ProductionCheck(inputs, o) == 0
    ensures RoomFor(o) && forall i | 0 <= i < 5 :: Valid(inputs[i])
    ensures Owned(Zeroed(m, o), inputs) == Owned(m, inputs)
    ensures Zeroed(m, o)[o.activeWord..o.activeWord + 4] == [0, 0, 0, 0]
    ensures Zeroed(m, o)[o.disconnectedWord..o.disconnectedWord + 4] == [0, 0, 0, 0]
    ensures forall x | 0 <= x < WORD && !(o.activeWord <= x < o.activeWord + 4) &&
                       !(o.disconnectedWord <= x < o.disconnectedWord + 4) :: Zeroed(m, o)[x] == m[x]
  {
    CheckedRoom(inputs, o);
    CheckedSpans(inputs, o);
    var m1 := Put(m, o.activeWord, [0, 0, 0, 0]);
    assert Apart(OutputSpans(o)[4], OutputSpans(o)[3]);
    PutApart(m1, o.disconnectedWord, [0, 0, 0, 0], Span(o.activeWord, 4));
    forall i | 0 <= i < 5
      ensures Bytes(Zeroed(m, o), inputs[i]) == Bytes(m, inputs[i])
    {
      assert Apart(inputs[i], OutputSpans(o)[3]) && Apart(inputs[i], OutputSpans(o)[4]);
      PutApart(m, o.activeWord, [0, 0, 0, 0], inputs[i]);
      PutApart(m1, o.disconnectedWord, [0, 0, 0, 0], inputs[i]);
    }
  }

  /** The ranges a successful call may write. */
  predicate Declared(o: Outputs, r: Reading, x: nat)
    requires r.Read?
  {
    || o.output.pointer <= x < o.output.pointer + 44
    || o.active.pointer <= x < o.active.pointer + r.a
    || o.disconnected.pointer <= x < o.disconnected.pointer + r.d
    || o.activeWord <= x < o.activeWord + 4
    || o.disconnectedWord <= x < o.disconnectedWord + 4
  }

  lemma FilledOutside(m: seq<Byte>, o: Outputs, r: Reading, x: nat)
    requires |m| == WORD && RoomFor(o) && r.Read? && Well(r) && LengthsFit(r)
    requires x < WORD && !Declared(o, r, x)
    ensures Filled(m, o, r)[x] == m[x]
  {}

  /** No two of the five output spans share an address. */
  predicate OutputsApart(o: Outputs) {
    forall i, j | 0 <= j < i < 5 :: Apart(OutputSpans(o)[i], OutputSpans(o)[j])
  }

  predicate Ready(m: seq<Byte>, o: Outputs, r: Reading) {
    && |m| == WORD && RoomFor(o) && OutputsApart(o) && r.Read? && Well(r) && LengthsFit(r)
    && o.output.length >= 44 && o.active.length >= 512 && o.disconnected.length >= 512
  }

  lemma FilledWire(m: seq<Byte>, o: Outputs, r: Reading)
    requires Ready(m, o, r) && Valid(o.output)
    ensures Filled(m, o, r)[o.output.pointer..o.output.pointer + 44] == Wire(r.facts)
  {
    var spans, wire := OutputSpans(o), Span(o.output.pointer, 44);
    var m1 := Put(m, o.output.pointer, Wire(r.facts));
    var m2 := Put(m1, o.active.pointer, r.active[..r.a]);
    var m3 := Put(m2, o.disconnected.pointer, r.disconnected[..r.d]);
    var m4 := Put(m3, o.activeWord, LittleEndian(r.a, 4));
    assert Apart(spans[1], spans[0]) && Apart(spans[2], spans[0]) && Apart(spans[3], spans[0])
           && Apart(spans[4], spans[0]);
    PutApart(m1, o.active.pointer, r.active[..r.a], wire);
    PutApart(m2, o.disconnected.pointer, r.disconnected[..r.d], wire);
    PutApart(m3, o.activeWord, LittleEndian(r.a, 4), wire);
    PutApart(m4, o.disconnectedWord, LittleEndian(r.d, 4), wire);
  }

  lemma FilledActive(m: seq<Byte>, o: Outputs, r: Reading)
    requires Ready(m, o, r) && Valid(o.active)
    ensures Filled(m, o, r)[o.active.pointer..o.active.pointer + r.a] == r.active[..r.a]
  {
    var spans, act := OutputSpans(o), Span(o.active.pointer, r.a);
    var m2 := Put(Put(m, o.output.pointer, Wire(r.facts)), o.active.pointer, r.active[..r.a]);
    var m3 := Put(m2, o.disconnected.pointer, r.disconnected[..r.d]);
    var m4 := Put(m3, o.activeWord, LittleEndian(r.a, 4));
    assert Apart(spans[2], spans[1]) && Apart(spans[3], spans[1]) && Apart(spans[4], spans[1]);
    PutApart(m2, o.disconnected.pointer, r.disconnected[..r.d], act);
    PutApart(m3, o.activeWord, LittleEndian(r.a, 4), act);
    PutApart(m4, o.disconnectedWord, LittleEndian(r.d, 4), act);
  }

  lemma FilledRest(m: seq<Byte>, o: Outputs, r: Reading)
    requires Ready(m, o, r) && Valid(o.disconnected) && Valid(Span(o.activeWord, 4))
    ensures Filled(m, o, r)[o.disconnected.pointer..o.disconnected.pointer + r.d] == r.disconnected[..r.d]
    ensures Filled(m, o, r)[o.activeWord..o.activeWord + 4] == LittleEndian(r.a, 4)
    ensures Filled(m, o, r)[o.disconnectedWord..o.disconnectedWord + 4] == LittleEndian(r.d, 4)
  {
    var spans, dis := OutputSpans(o), Span(o.disconnected.pointer, r.d);
    var m2 := Put(Put(m, o.output.pointer, Wire(r.facts)), o.active.pointer, r.active[..r.a]);
    var m3 := Put(m2, o.disconnected.pointer, r.disconnected[..r.d]);
    var m4 := Put(m3, o.activeWord, LittleEndian(r.a, 4));
    assert Apart(spans[3], spans[2]) && Apart(spans[4], spans[2]) && Apart(spans[4], spans[3]);
    PutApart(m3, o.activeWord, LittleEndian(r.a, 4), dis);
    PutApart(m4, o.disconnectedWord, LittleEndian(r.d, 4), dis);
    PutApart(m4, o.disconnectedWord, LittleEndian(r.d, 4), spans[3]);
  }

  /** A successful production call writes its declared prefixes, the length words name their sizes,
      and every other address, the inputs among them, is as before. */
  lemma WritesExactly(m: seq<Byte>, inputs: seq<Span>, o: Outputs, r: Reading)
    requires |m| == WORD && |inputs| == 5 && ProductionCheck(inputs, o) == 0
    requires r.Read? && Well(r) && LengthsFit(r)
    ensures RoomFor(o) && forall i | 0 <= i < 5 :: Valid(inputs[i])
    ensures var w := Filled(Zeroed(m, o), o, r);
            && w[o.output.pointer..o.output.pointer + 44] == Wire(r.facts)
            && w[o.active.pointer..o.active.pointer + r.a] == r.active[..r.a]
            && w[o.disconnected.pointer..o.disconnected.pointer + r.d] == r.disconnected[..r.d]
            && FromLittle(w[o.activeWord..o.activeWord + 4]) == r.a
            && FromLittle(w[o.disconnectedWord..o.disconnectedWord + 4]) == r.d
    ensures forall x | 0 <= x < WORD && !Declared(o, r, x) :: Filled(Zeroed(m, o), o, r)[x] == m[x]
    ensures Owned(Filled(Zeroed(m, o), o, r), inputs) == Owned(m, inputs)
  {
    CheckedRoom(inputs, o);
    CheckedSpans(inputs, o);
    DeclaredHolds(m, inputs, o, r);
    UndeclaredStays(m, inputs, o, r);
    forall i | 0 <= i < 5
      ensures Bytes(Filled(Zeroed(m, o), o, r), inputs[i]) == Bytes(m, inputs[i])
    {
      InputUndeclared(inputs, o, r, i);
    }
  }

  lemma DeclaredHolds(m: seq<Byte>, inputs: seq<Span>, o: Outputs, r: Reading)
    requires |m| == WORD && |inputs| == 5 && ProductionCheck(inputs, o) == 0
    requires r.Read? && Well(r) && LengthsFit(r) && RoomFor(o)
    ensures var w := Filled(Zeroed(m, o), o, r);
            && w[o.output.pointer..o.output.pointer + 44] == Wire(r.facts)
            && w[o.active.pointer..o.active.pointer + r.a] == r.active[..r.a]
            && w[o.disconnected.pointer..o.disconnected.pointer + r.d] == r.disconnected[..r.d]
            && FromLittle(w[o.activeWord..o.activeWord + 4]) == r.a
            && FromLittle(w[o.disconnectedWord..o.disconnectedWord + 4]) == r.d
  {
    CheckedSpans(inputs, o);
    var z := Zeroed(m, o);
    assert Valid(OutputSpans(o)[0]) && Valid(OutputSpans(o)[1]) && Valid(OutputSpans(o)[2]) && Valid(OutputSpans(o)[3]);
    FilledWire(z, o, r);
    FilledActive(z, o, r);
    FilledRest(z, o, r);
    assert Power256(4) == 256 * (256 * (256 * 256));
    LittleRoundTrip(r.a, 4);
    LittleRoundTrip(r.d, 4);
  }

  lemma UndeclaredStays(m: seq<Byte>, inputs: seq<Span>, o: Outputs, r: Reading)
    requires |m| == WORD && |inputs| == 5 && ProductionCheck(inputs, o) == 0
    requires r.Read? && Well(r) && LengthsFit(r) && RoomFor(o)
    ensures forall x | 0 <= x < WORD && !Declared(o, r, x) :: Filled(Zeroed(m, o), o, r)[x] == m[x]
  {
    ZeroedOnly(m, inputs, o);
    forall x | 0 <= x < WORD && !Declared(o, r, x)
      ensures Filled(Zeroed(m, o), o, r)[x] == m[x]
    {
      FilledOutside(Zeroed(m, o), o, r, x);
    }
  }

  lemma InputUndeclared(inputs: seq<Span>, o: Outputs, r: Reading, i: nat)
    requires |inputs| == 5 && ProductionCheck(inputs, o) == 0 && r.Read? && LengthsFit(r) && i < 5
    ensures Valid(inputs[i])
    ensures forall x | inputs[i].pointer <= x < inputs[i].pointer + inputs[i].length :: !Declared(o, r, x)
  {
    CheckedSpans(inputs, o);
    assert Apart(inputs[i], OutputSpans(o)[0]) && Apart(inputs[i], OutputSpans(o)[1])
           && Apart(inputs[i], OutputSpans(o)[2]);
    assert Apart(inputs[i], OutputSpans(o)[3]) && Apart(inputs[i], OutputSpans(o)[4]);
  }

  /** Reading the wire form back. */
  function FactsOf(w: seq<Byte>): ProductionFacts
    requires |w| == 44
  {
    ProductionFacts(FromBig(w[..8]), w[8..40], FromBig(w[40..42]), w[42], w[43])
  }

  lemma WireRoundTrip(f: ProductionFacts)
    requires |f.digest| == 32 && f.generation <= MAX_ADDRESS && f.mtu < 65536
    ensures FactsOf(Wire(f)) == f
  {
    var w := Wire(f);
    assert w[..8] == BigEndian(f.generation, 8) && w[8..40] == f.digest && w[40..42] == BigEndian(f.mtu, 2);
    WordPower();
    BigRoundTrip(f.generation, 8);
    BigRoundTrip(f.mtu, 2);
  }

  function LegacyFactsOf(w: seq<Byte>): LegacyFacts
    requires |w| == 41
  {
    LegacyFacts(FromBig(w[..8]), w[8..40], w[40])
  }

  /** A successful legacy call leaves every input alone, and its prefix reads back as the facts. */
  lemma LegacyWritesExactly(m: seq<Byte>, inputs: seq<Span>, output: Span, f: LegacyFacts)
    requires |m| == WORD && |inputs| == 5 && LegacyCheck(inputs, output) == 0 && |f.digest| == 32
    ensures Valid(output) && forall i | 0 <= i < 5 :: Valid(inputs[i])
    ensures Owned(Put(m, output.pointer, LegacyWire(f)), inputs) == Owned(m, inputs)
    ensures f.generation <= MAX_ADDRESS ==> LegacyFactsOf(LegacyWire(f)) == f
  {
    var spans := inputs + [output];
    forall i | 0 <= i < 5
      ensures Valid(inputs[i]) && Bytes(Put(m, output.pointer, LegacyWire(f)), inputs[i]) == Bytes(m, inputs[i])
    {
      assert Valid(spans[i]) && Apart(spans[5], spans[i]);
      PutApart(m, output.pointer, LegacyWire(f), inputs[i]);
    }
    if f.generation <= MAX_ADDRESS {
      WordPower();
      BigRoundTrip(f.generation, 8);
      var w := LegacyWire(f);
      assert w[..8] == BigEndian(f.generation, 8) && w[8..40] == f.digest;
    }
  }
}

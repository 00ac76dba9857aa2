/**
 The two memory budgets computed in 64-bit words: the transport workspace, summed by a
 closure that latches an overflow flag, and the backing of the output frames, guarded by
 subtraction and division before each step. Both are compared with the same formula over
 unbounded integers.
 */
module Budgets {
  import opened Options
  import opened Sums

  const MAX_WORD: nat := 0xFFFF_FFFF_FFFF_FFFF

  type Word = x: int | 0 <= x <= MAX_WORD

  /** The size of a Go type, far below the address space. */
  type Size = x: int | 0 <= x < 0x1_0000_0000_0000

  function Max(a: nat, b: nat): nat { if a < b then b else a }

  /** The closure `add` and the flag it captures. */
  class Adder {
    var overflow: bool

    constructor ()
      ensures !overflow
    {
      overflow := false;
    }

    method Add(values: seq<Word>) returns (n: Word)
      modifies this
      ensures overflow == (old(overflow) || Sum(values) > MAX_WORD)
      ensures n == if Sum(values) > MAX_WORD then 0 else Sum(values)
    {
      n := 0;
      var i := 0;
      while i < |values|
        invariant 0 <= i <= |values| && n == Sum(values[..i])
        invariant overflow == old(overflow)
      {
        assert values[..i + 1] == values[..i] + [values[i]];
        SumSnoc(values[..i], values[i]);
        if values[i] > MAX_WORD - n {
          SumPrefix(values[..i + 1], values[i + 1..]);
          assert values[..i + 1] + values[i + 1..] == values;
          overflow := true;
          return 0;
        }
        n := n + values[i];
        i := i + 1;
      }
      assert values[..|values|] == values;
    }

    method Clone(n: Word) returns (c: Word)
      modifies this
      ensures overflow == (old(overflow) || CloneOf(n) > MAX_WORD)
      ensures c == if CloneOf(n) > MAX_WORD then 0 else CloneOf(n)
    {
      if n == 0 {
        return 0;
      }
      Sum3(n, n, 8);
      c := Add([n, n, 8]);
    }
  }

  function CloneOf(n: nat): nat { if n == 0 then 0 else n + n + 8 }

  lemma Sum2(a: nat, b: nat)
    ensures Sum([a, b]) == a + b
  {
    assert [a, b][1..] == [b] && |[b][1..]| == 0;
    assert Sum([b]) == b;
  }

  lemma Sum3(a: nat, b: nat, c: nat)
    ensures Sum([a, b, c]) == a + b + c
  {
    assert [a, b, c][1..] == [b, c];
    Sum2(b, c);
  }

  lemma Sum4(a: nat, b: nat, c: nat, d: nat)
    ensures Sum([a, b, c, d]) == a + b + c + d
  {
    assert [a, b, c, d][1..] == [b, c, d];
    Sum3(b, c, d);
  }

  lemma Sum6(a: nat, b: nat, c: nat, d: nat, e: nat, f: nat)
    ensures Sum([a, b, c, d, e, f]) == a + b + c + d + e + f
  {
    assert [a, b, c, d, e, f][1..] == [b, c, d, e, f];
    assert [b, c, d, e, f][1..] == [c, d, e, f];
    Sum4(c, d, e, f);
  }

  lemma Sum8(a: nat, b: nat, c: nat, d: nat, e: nat, f: nat, g: nat, h: nat)
    ensures Sum([a, b, c, d, e, f, g, h]) == a + b + c + d + e + f + g + h
  {
    assert [a, b, c, d, e, f, g, h][1..] == [b, c, d, e, f, g, h];
    assert [b, c, d, e, f, g, h][1..] == [c, d, e, f, g, h];
    Sum6(c, d, e, f, g, h);
  }

  // ----- the transport workspace -----

  /** The sizes of the Go types the formula charges. */
  datatype Layout = Layout(transport: Size, stage: Size, workerHolders: Size, callHolders: Size, callCapture: Size,
                           tlsConfig: Size, timeCapture: Size, conn: Size, connectorHolders: Size, file: Size)

  /** What the three projected workspaces come to. */
  datatype Needs = Needs(handshake: Word, attach: Word, preface: Word)

  const POOL_SIZE: nat := 48
  const DECODE: nat := 2972288 + 131072
  const CHAIN: nat := 1674104 + 131072

  function Fixed(l: Layout): nat {
    l.transport + 1032 + 2 * l.stage + l.workerHolders + l.callHolders + l.callCapture
  }

  function Pool(d: nat): nat { POOL_SIZE + 376 + 312 + CloneOf(40) + CloneOf(8) + d + CloneOf(d) + 16 }

  function TlsNative(l: Layout, d: nat): nat { 1572864 + Pool(d) + 2 * l.tlsConfig + 32 + l.timeCapture + 32 }

  function PrefaceStage(w: Needs): nat { Max(DECODE, 141840 + w.preface) }

  function TlsStage(l: Layout, d: nat): nat { Max(CHAIN, TlsNative(l, d)) }

  function HandshakeStage(l: Layout, d: nat, w: Needs): nat { TlsNative(l, d) + l.conn + w.handshake + l.callHolders }

  function AttachStage(l: Layout, d: nat, w: Needs): nat { TlsNative(l, d) + w.attach }

  function ConnectorStage(l: Layout): nat { l.connectorHolders + l.file }

  /** The costliest of the stages, only one of which is live at a time. */
  function Peak(l: Layout, d: nat, w: Needs): nat {
    Max(Max(Max(ConnectorStage(l), PrefaceStage(w)), Max(TlsStage(l, d), HandshakeStage(l, d, w))),
        AttachStage(l, d, w))
  }

  function Budget(l: Layout, d: nat, w: Needs): nat { Fixed(l) + Peak(l, d, w) }

  /** The budget covers every stage and is no larger than one of them needs. */
  lemma BudgetIsTheWorstStage(l: Layout, d: nat, w: Needs)
    ensures var stages := [ConnectorStage(l), PrefaceStage(w), TlsStage(l, d), HandshakeStage(l, d, w),
                           AttachStage(l, d, w)];
            && (forall i | 0 <= i < 5 :: Fixed(l) + stages[i] <= Budget(l, d, w))
            && (exists i | 0 <= i < 5 :: Fixed(l) + stages[i] == Budget(l, d, w))
  {
    var stages := [ConnectorStage(l), PrefaceStage(w), TlsStage(l, d), HandshakeStage(l, d, w), AttachStage(l, d, w)];
    assert stages[0] == ConnectorStage(l) && stages[1] == PrefaceStage(w) && stages[2] == TlsStage(l, d)
        && stages[3] == HandshakeStage(l, d, w) && stages[4] == AttachStage(l, d, w);
  }

  /** The budget, by what it must cover: it is the least number that leaves room for the standing
      objects together with each stage in turn, every object counted as often as it is held. */
  lemma BudgetIsLeast(l: Layout, d: nat, w: Needs, n: nat)
    requires d > 0
    ensures var base := l.transport + 1032 + 2 * l.stage + l.workerHolders + l.callHolders + l.callCapture;
            var tls := 1573800 + 3 * d + 2 * l.tlsConfig + l.timeCapture;
            Budget(l, d, w) <= n <==>
              && base + l.connectorHolders + l.file <= n
              && base + 3103360 <= n && base + 141840 + w.preface <= n
              && base + 1805176 <= n && base + tls <= n
              && base + tls + l.conn + w.handshake + l.callHolders <= n
              && base + tls + w.attach <= n
  {
    assert CloneOf(40) == 88 && CloneOf(8) == 24 && CloneOf(d) == 2 * d + 8;
  }

  method FixedWords(adder: Adder, l: Layout) returns (n: Word)
    modifies adder
    ensures adder.overflow == old(adder.overflow) && n == Fixed(l)
  {
    var metadata := 80 + 16 + 7 * 112 + 112 + 24 + 16;
    Sum6(l.transport, metadata, 2 * l.stage, l.workerHolders, l.callHolders, l.callCapture);
    n := adder.Add([l.transport, metadata, 2 * l.stage, l.workerHolders, l.callHolders, l.callCapture]);
  }

  method TlsWords(adder: Adder, l: Layout, d: nat) returns (n: Word)
    requires d <= 4096
    modifies adder
    ensures adder.overflow == old(adder.overflow) && n == TlsNative(l, d)
  {
    var c40 := adder.Clone(40);
    var c8 := adder.Clone(8);
    var cd := adder.Clone(d);
    Sum8(POOL_SIZE, 48 + 8 + 8 * 40, 48 + 8 + 8 * 32, c40, c8, d, cd, 16);
    var pool := adder.Add([POOL_SIZE, 48 + 8 + 8 * 40, 48 + 8 + 8 * 32, c40, c8, d, cd, 16]);
    Sum6(1572864, pool, 2 * l.tlsConfig, 2 * 16, l.timeCapture, 32);
    n := adder.Add([1572864, pool, 2 * l.tlsConfig, 2 * 16, l.timeCapture, 32]);
  }

  /** Either an error or exactly the unbounded formula: an overflow in any sub-sum is an error,
      never a smaller budget, and nothing else is. */
  method Workspace(l: Layout, knownRuntime: bool, poolSize: Size, d: nat, handshake: Option<Word>, attach: Option<Word>,
                   preface: Option<Word>) returns (r: Option<Word>)
    ensures r.Some? <==> knownRuntime && poolSize == 48 && 1 <= d <= 4096 && handshake.Some? && attach.Some?
                         && preface.Some?
                         && Budget(l, d, Needs(handshake.value, attach.value, preface.value)) <= MAX_WORD
    ensures r.Some? ==> r.value == Budget(l, d, Needs(handshake.value, attach.value, preface.value))
  {
    if !knownRuntime || poolSize != POOL_SIZE || d == 0 || d > 4096 {
      return None;
    }
    if handshake.None? || attach.None? || preface.None? {
      return None;
    }
    var w := Needs(handshake.value, attach.value, preface.value);
    var adder := new Adder();
    var fixed := FixedWords(adder, l);
    var peak := PeakWords(adder, l, d, w);
    Sum2(fixed, peak);
    var n := adder.Add([fixed, peak]);
    if adder.overflow {
      return None;
    }
    r := Some(n);
  }

  /** The costliest stage, or an overflow if that stage does not fit. */
  method PeakWords(adder: Adder, l: Layout, d: nat, w: Needs) returns (peak: Word)
    requires d <= 4096 && !adder.overflow
    modifies adder
    ensures adder.overflow <==> Peak(l, d, w) > MAX_WORD
    ensures !adder.overflow ==> peak == Peak(l, d, w)
  {
    var tls := TlsWords(adder, l, d);
    var decode := Max(2423424, 1399424 + 1572864) + 131072;
    Sum2(141840, w.preface);
    var prefaceSum := adder.Add([141840, w.preface]);
    var prefaceStage := Max(decode, prefaceSum);
    var tlsStage := Max(Max(1125240, 101240 + 1572864) + 131072, tls);
    Sum4(tls, l.conn, w.handshake, l.callHolders);
    var handshakeStage := adder.Add([tls, l.conn, w.handshake, l.callHolders]);
    Sum2(tls, w.attach);
    var attachStage := adder.Add([tls, w.attach]);
    peak := Max(Max(Max(l.connectorHolders + l.file, prefaceStage), Max(tlsStage, handshakeStage)), attachStage);
  }

  // ----- the output frames -----

  const OK: nat := 0
  const INVALID_ARGUMENT: nat := 1
  const RESOURCE_LIMIT: nat := 24

  /** The division guard says exactly that the product does not fit. */
  lemma DivisionGuard(frames: nat, room: nat, observer: nat)
    requires observer > 0
    ensures frames > room / observer <==> frames * observer > room
  {
    var q := room / observer;
    assert room == q * observer + room % observer;
    if frames > q {
      assert frames * observer >= (q + 1) * observer;
    } else {
      assert frames * observer <= q * observer;
    }
  }

  method OverlapBacking(frames: Word, table: Word, slot: Word, registry: Word, rates: Option<Word>, observer: Word)
    returns (n: Word, status: nat)
    requires slot <= table
    ensures status == 1 <==> frames == 0
    ensures status == 0 <==> frames != 0 && rates.Some?
                              && table - slot + registry + rates.value + frames * observer <= MAX_WORD
    ensures status in {0, 1, 24}
    ensures n == if status == 0 then table - slot + registry + rates.value + frames * observer else 0
  {
    if frames == 0 {
      return 0, INVALID_ARGUMENT;
    }
    var shared := table - slot;
    if registry > MAX_WORD - shared {
      return 0, RESOURCE_LIMIT;
    }
    shared := shared + registry;
    if rates.None? {
      return 0, RESOURCE_LIMIT;
    }
    if rates.value > MAX_WORD - shared {
      assert frames * observer >= 0;
      return 0, RESOURCE_LIMIT;
    }
    shared := shared + rates.value;
    if observer != 0 {
      DivisionGuard(frames, MAX_WORD - shared, observer);
    }
    if observer != 0 && frames > (MAX_WORD - shared) / observer {
      return 0, RESOURCE_LIMIT;
    }
    return shared + frames * observer, OK;
  }
}

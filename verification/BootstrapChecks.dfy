/**
 What the checks before a binding decide, said of addresses and lengths alone, and where each
 field lies in the two wire forms.
 */
module BootstrapChecks {
  import opened ByteBuffer
  import opened BootstrapBinding

  predicate Holds(s: Span, x: nat) { s.pointer <= x < s.pointer + s.length }

  /** A usable span is not nil, not empty and ends inside the address space. */
  predicate Usable(s: Span) { s.pointer != 0 && s.length > 0 && s.pointer + s.length <= 0xFFFF_FFFF_FFFF_FFFF }

  lemma ValidIsUsable(s: Span)
    ensures Valid(s) <==> Usable(s)
  {}

  /** Usable spans are apart exactly when they share no address. */
  lemma ApartExactlyWhen(a: Span, b: Span)
    requires Usable(a) && Usable(b)
    ensures Apart(a, b) <==> forall x: nat :: !(Holds(a, x) && Holds(b, x))
  {
    if !Apart(a, b) {
      var x := if a.pointer < b.pointer then b.pointer else a.pointer;
      assert Holds(a, x) && Holds(b, x);
    }
  }

  /** Every span is usable and no address lies in two of them. */
  ghost predicate Separate(spans: seq<Span>) {
    && (forall i | 0 <= i < |spans| :: Usable(spans[i]))
    && forall i, j, x: nat | 0 <= j < i < |spans| :: !(Holds(spans[i], x) && Holds(spans[j], x))
  }

  lemma DisjointIsSeparate(spans: seq<Span>)
    ensures Disjoint(spans) <==> Separate(spans)
  {
    forall i | 0 <= i < |spans|
      ensures Valid(spans[i]) <==> Usable(spans[i])
    {
      ValidIsUsable(spans[i]);
    }
    forall i, j | 0 <= j < i < |spans| && Usable(spans[i]) && Usable(spans[j])
      ensures Apart(spans[i], spans[j]) <==> forall x: nat :: !(Holds(spans[i], x) && Holds(spans[j], x))
    {
      ApartExactlyWhen(spans[i], spans[j]);
    }
  }

  // ----- inputs -----

  predicate Within(inputs: seq<Span>, maxima: seq<nat>, n: nat)
    requires n <= |inputs| == |maxima|
  {
    forall k | 0 <= k < n :: Usable(inputs[k]) && inputs[k].length <= maxima[k]
  }

  /** The first input that does not fit is usable but too long, or not usable. */
  ghost predicate TooLongFirst(inputs: seq<Span>, maxima: seq<nat>)
    requires |inputs| == |maxima|
  {
    exists i | 0 <= i < |inputs| :: Within(inputs, maxima, i) && Usable(inputs[i]) && inputs[i].length > maxima[i]
  }

  lemma {:induction false} InputsVerdictIs(inputs: seq<Span>, maxima: seq<nat>)
    requires |inputs| == |maxima|
    ensures InputsVerdict(inputs, maxima) == 0 <==> Within(inputs, maxima, |inputs|)
    ensures InputsVerdict(inputs, maxima) == 4 <==> TooLongFirst(inputs, maxima)
    ensures InputsVerdict(inputs, maxima) in {0, 2, 4}
  {
    if inputs != [] {
      ValidIsUsable(inputs[0]);
      var more, rest := inputs[1..], maxima[1..];
      InputsVerdictIs(more, rest);
      if Usable(inputs[0]) && inputs[0].length <= maxima[0] {
        TailWithin(inputs, maxima);
        TailTooLong(inputs, maxima);
      } else if Usable(inputs[0]) {
        assert Within(inputs, maxima, 0);
      }
    }
  }

  lemma TailWithin(inputs: seq<Span>, maxima: seq<nat>)
    requires |inputs| == |maxima| > 0 && Usable(inputs[0]) && inputs[0].length <= maxima[0]
    ensures Within(inputs, maxima, |inputs|) <==> Within(inputs[1..], maxima[1..], |inputs| - 1)
  {
    var more, rest := inputs[1..], maxima[1..];
    if Within(more, rest, |more|) {
      forall k | 0 <= k < |inputs|
        ensures Usable(inputs[k]) && inputs[k].length <= maxima[k]
      {
        assert k > 0 ==> inputs[k] == more[k - 1] && maxima[k] == rest[k - 1];
      }
    }
  }

  lemma TailTooLong(inputs: seq<Span>, maxima: seq<nat>)
    requires |inputs| == |maxima| > 0 && Usable(inputs[0]) && inputs[0].length <= maxima[0]
    ensures TooLongFirst(inputs, maxima) <==> TooLongFirst(inputs[1..], maxima[1..])
  {
    var more, rest := inputs[1..], maxima[1..];
    if TooLongFirst(inputs, maxima) {
      var i :| 0 <= i < |inputs| && Within(inputs, maxima, i) && Usable(inputs[i]) && inputs[i].length > maxima[i];
      assert forall k | 0 <= k < i - 1 :: more[k] == inputs[k + 1] && rest[k] == maxima[k + 1];
      assert Within(more, rest, i - 1) && more[i - 1] == inputs[i];
    }
    if TooLongFirst(more, rest) {
      var i :| 0 <= i < |more| && Within(more, rest, i) && Usable(more[i]) && more[i].length > rest[i];
      assert forall k | 1 <= k < i + 1 :: inputs[k] == more[k - 1] && maxima[k] == rest[k - 1];
      assert Within(inputs, maxima, i + 1) && inputs[i + 1] == more[i];
    }
  }

  // ----- the production binding -----

  predicate WordsFit(o: Outputs) {
    o.activeWord > 0 && o.activeWord % 4 == 0 && o.disconnectedWord > 0 && o.disconnectedWord % 4 == 0
  }

  function Ranges(o: Outputs): seq<Span> {
    [o.output, o.active, o.disconnected, Span(o.activeWord, 4), Span(o.disconnectedWord, 4)]
  }

  predicate RoomEnough(o: Outputs) { o.output.length >= 44 && o.active.length >= 512 && o.disconnected.length >= 512 }

  /** The check passes exactly for aligned words, ten usable spans that share no address, 44 bytes of
      output, 512 for each authority, and inputs within their five maxima. A size that does not suit,
      where everything looked at before it did, is 4; everything else is 2. */
  lemma ProductionCheckExactly(inputs: seq<Span>, o: Outputs)
    requires |inputs| == 5
    ensures var maxima := [1405996, 1118299, 512, 128, 196608];
            var verdict := ProductionCheck(inputs, o);
            && (verdict == 0 <==>
                  WordsFit(o) && Separate(inputs + Ranges(o)) && RoomEnough(o) && Within(inputs, maxima, 5))
            && (verdict == 4 <==>
                  WordsFit(o) && Separate(Ranges(o)) && (RoomEnough(o) ==> TooLongFirst(inputs, maxima)))
            && verdict in {0, 2, 4}
  {
    var maxima := [1405996, 1118299, 512, 128, 196608];
    assert maxima == PRODUCTION_MAXIMA && Ranges(o) == OutputSpans(o);
    DisjointIsSeparate(OutputSpans(o));
    DisjointIsSeparate(inputs + OutputSpans(o));
    InputsVerdictIs(inputs, maxima);
    if Separate(inputs + Ranges(o)) {
      SuffixSeparate(inputs, Ranges(o));
    }
  }

  lemma SuffixSeparate(a: seq<Span>, b: seq<Span>)
    requires Separate(a + b)
    ensures Separate(b)
  {
    var c := a + b;
    assert forall i | 0 <= i < |b| :: b[i] == c[|a| + i];
    forall i | 0 <= i < |b|
      ensures Usable(b[i])
    {
      assert Usable(c[|a| + i]);
    }
    forall i, j, x: nat | 0 <= j < i < |b|
      ensures !(Holds(b[i], x) && Holds(b[j], x))
    {
      assert !(Holds(c[|a| + i], x) && Holds(c[|a| + j], x));
    }
  }

  /** The legacy check: 41 bytes of output, its own maxima, 2 for a size and 1 for anything else. */
  lemma LegacyCheckExactly(inputs: seq<Span>, output: Span)
    requires |inputs| == 5
    ensures var maxima := [1405996, 1118299, 512, 128, 16777];
            var verdict := LegacyCheck(inputs, output);
            && (verdict == 0 <==>
                  Separate(inputs + [output]) && output.length >= 41 && Within(inputs, maxima, 5))
            && (verdict == 2 <==> Usable(output) && (output.length >= 41 ==> TooLongFirst(inputs, maxima)))
            && verdict in {0, 1, 2}
  {
    var maxima := [1405996, 1118299, 512, 128, 16777];
    assert maxima == LEGACY_MAXIMA;
    ValidIsUsable(output);
    DisjointIsSeparate(inputs + [output]);
    InputsVerdictIs(inputs, maxima);
    if Separate(inputs + [output]) {
      SuffixSeparate(inputs, [output]);
      assert Usable([output][0]);
    }
  }

  /** The reader is given each input's bytes, as they lie in memory. */
  lemma OwnedIs(m: seq<Byte>, inputs: seq<Span>, i: nat)
    requires |m| == WORD && i < |inputs| && forall k | 0 <= k < |inputs| :: Valid(inputs[k])
    ensures |Owned(m, inputs)| == |inputs| && |Owned(m, inputs)[i]| == inputs[i].length
    ensures forall k | 0 <= k < inputs[i].length :: Owned(m, inputs)[i][k] == m[inputs[i].pointer + k]
  {}

  // ----- wire forms -----

  /** Generation, digest, MTU, retry and reconnect maxima, in that order. */
  lemma WireLayout(f: ProductionFacts)
    requires |f.digest| == 32 && f.generation <= 0xFFFF_FFFF_FFFF_FFFF && f.mtu < 65536
    ensures var w := Wire(f);
            && |w| == 44 && FromBig(w[0..8]) == f.generation && w[8..40] == f.digest && FromBig(w[40..42]) == f.mtu
            && w[42] == f.retry && w[43] == f.reconnect
  {
    var w := Wire(f);
    var head := BigEndian(f.generation, 8) + f.digest;
    var tail: seq<Byte> := BigEndian(f.mtu, 2) + [f.retry] + [f.reconnect];
    assert w == head + tail && |head| == 40;
    assert w[40..42] == tail[..2] && w[42] == tail[2] && w[43] == tail[3];
    assert w[0..8] == head[..8] && w[8..40] == head[8..];
    WordPower();
    BigRoundTrip(f.generation, 8);
    BigRoundTrip(f.mtu, 2);
  }

  lemma LegacyLayout(f: LegacyFacts)
    requires |f.digest| == 32 && f.generation <= 0xFFFF_FFFF_FFFF_FFFF
    ensures var w := LegacyWire(f);
            |w| == 41 && FromBig(w[0..8]) == f.generation && w[8..40] == f.digest && w[40] == f.retry
  {
    var w := LegacyWire(f);
    assert w[0..8] == BigEndian(f.generation, 8);
    WordPower();
    BigRoundTrip(f.generation, 8);
  }
}

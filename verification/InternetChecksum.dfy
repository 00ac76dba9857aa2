/**
 The Internet checksum of RFC 1071, as the fixture computes it: 16-bit big-endian words
 summed in a 32-bit accumulator, end-around carries folded in, and the complement taken.
 */
module InternetChecksum {
  import opened ByteBuffer

  const ACC: nat := 0x1_0000_0000

  function High(b: Byte): nat { 256 * (b as int) }

  /** Sum of the big-endian 16-bit words of one part; an odd last byte is a high byte. */
  function WordSum(b: seq<Byte>): nat {
    if |b| == 0 then 0
    else if |b| == 1 then High(b[0])
    else High(b[0]) + b[1] as int + WordSum(b[2..])
  }

  function Total(parts: seq<seq<Byte>>): nat { if parts == [] then 0 else WordSum(parts[0]) + Total(parts[1..]) }

  lemma TotalOne(b: seq<Byte>)
    ensures Total([b]) == WordSum(b)
  {
    assert |[b][1..]| == 0;
  }

  /** End-around carry until sixteen bits are left. */
  function Fold(n: nat): (f: nat)
    ensures f <= 65535
    decreases n
  {
    if n < 65536 then n else Fold(n % 65536 + n / 65536)
  }

  /** The routine's result over unbounded parts; the accumulator keeps 32 bits. */
  function ChecksumOf(parts: seq<seq<Byte>>): nat { 65535 - Fold(Total(parts) % ACC) }

  // ----- folding -----

  /** Folding yields the one representative of the sum modulo 65535 in 0..65535 that is zero
      only for a zero sum. */
  lemma {:induction false} FoldIs(n: nat)
    ensures Fold(n) == if n == 0 then 0 else (n - 1) % 65535 + 1
    decreases n
  {
    if n >= 65536 {
      var q, r := n / 65536, n % 65536;
      FoldIs(r + q);
      assert n - 1 == (r + q - 1) + 65535 * q;
      ModAdd(r + q - 1, q);
    }
  }

  lemma ModAdd(x: nat, q: nat)
    ensures (x + 65535 * q) % 65535 == x % 65535
  {
    var a, b := x / 65535, x % 65535;
    assert x + 65535 * q == 65535 * (a + q) + b;
    assert (65535 * (a + q) + b) / 65535 == a + q;
  }

  lemma FoldKeepsResidue(n: nat)
    ensures Fold(n) <= 65535 && Fold(n) % 65535 == n % 65535 && (Fold(n) == 0 <==> n == 0)
  {
    FoldIs(n);
    if n > 0 {
      var q, r := (n - 1) / 65535, (n - 1) % 65535;
      assert n == r + 1 + 65535 * q;
      ModAdd(r + 1, q);
    }
  }

  // ----- the routine -----

  lemma {:induction false} WordSumSnoc(b: seq<Byte>, i: nat)
    requires i % 2 == 0 && i < |b|
    ensures i + 1 < |b| ==> WordSum(b[..i + 2]) == WordSum(b[..i]) + High(b[i]) + b[i + 1] as int
    ensures i + 1 == |b| ==> WordSum(b) == WordSum(b[..i]) + High(b[i])
  {
    if i + 1 < |b| {
      EvenSplit(b[..i], b[i..i + 2]);
      assert b[..i] + b[i..i + 2] == b[..i + 2];
      assert b[i..i + 2] == [b[i], b[i + 1]];
    } else {
      EvenSplit(b[..i], b[i..]);
      assert b[..i] + b[i..] == b;
      assert b[i..] == [b[i]];
    }
  }

  /** Splitting after an even number of bytes does not change the sum. */
  lemma {:induction false} EvenSplit(a: seq<Byte>, b: seq<Byte>)
    requires |a| % 2 == 0
    ensures WordSum(a + b) == WordSum(a) + WordSum(b)
  {
    if a == [] {
      assert a + b == b;
    } else {
      EvenSplit(a[2..], b);
      assert (a + b)[2..] == a[2..] + b;
    }
  }

  function Concat(parts: seq<seq<Byte>>): seq<Byte> { if parts == [] then [] else parts[0] + Concat(parts[1..]) }

  /** Parts sum like their concatenation when every part but the last has even length. */
  lemma {:induction false} PartsSumLikeWhole(parts: seq<seq<Byte>>)
    requires forall i | 0 <= i < |parts| - 1 :: |parts[i]| % 2 == 0
    ensures Total(parts) == WordSum(Concat(parts))
    ensures ChecksumOf(parts) == ChecksumOf([Concat(parts)])
  {
    if |parts| == 1 {
      assert Concat(parts) == parts[0];
      assert |parts[1..]| == 0;
    } else if parts != [] {
      PartsSumLikeWhole(parts[1..]);
      EvenSplit(parts[0], Concat(parts[1..]));
    }
    var w: seq<Byte> := Concat(parts);
    assert |[w][1..]| == 0;
    assert Total([w]) == WordSum(w);
  }

  lemma {:induction false} TotalSnoc(parts: seq<seq<Byte>>, p: seq<Byte>)
    ensures Total(parts + [p]) == Total(parts) + WordSum(p)
  {
    if parts == [] {
      assert parts + [p] == [p];
      assert |[p][1..]| == 0;
    } else {
      TotalSnoc(parts[1..], p);
      assert (parts + [p])[1..] == parts[1..] + [p];
    }
  }

  lemma WrapAdd(x: nat, y: nat)
    ensures (x % ACC + y) % ACC == (x + y) % ACC
  {
    var q, r := x / ACC, x % ACC;
    assert x + y == (r + y) + ACC * q;
    assert ((r + y) + ACC * q) % ACC == (r + y) % ACC by {
      var c, d := (r + y) / ACC, (r + y) % ACC;
      assert (r + y) + ACC * q == ACC * (c + q) + d;
      assert (ACC * (c + q) + d) / ACC == c + q;
    }
  }

  /** The inner loop: one part is added to the accumulator, every addition wrapping. */
  method AddPart(start: nat, b: seq<Byte>) returns (sum: nat)
    ensures sum == (start + WordSum(b)) % ACC
  {
    sum := start % ACC;
    var i := 0;
    while i < |b|
      invariant 0 <= i && i % 2 == 0 && i <= |b| + 1
      invariant sum == (start + (if i <= |b| then WordSum(b[..i]) else WordSum(b))) % ACC
    {
      WordSumSnoc(b, i);
      ghost var before := start + WordSum(b[..i]);
      WrapAdd(before, High(b[i]));
      sum := (sum + High(b[i])) % ACC;
      if i + 1 < |b| {
        WrapAdd(before + High(b[i]), b[i + 1] as int);
        sum := (sum + b[i + 1] as int) % ACC;
      }
      i := i + 2;
    }
    assert b[..|b|] == b;
  }

  /** The whole routine: accumulate every part, then fold the carries and complement. */
  method Checksum(parts: seq<seq<Byte>>) returns (c: nat)
    ensures c == ChecksumOf(parts)
    ensures c <= 65535
  {
    var sum: nat := 0;
    var k := 0;
    while k < |parts|
      invariant 0 <= k <= |parts|
      invariant sum == Total(parts[..k]) % ACC
    {
      ghost var before := Total(parts[..k]);
      sum := AddPart(sum, parts[k]);
      WrapAdd(before, WordSum(parts[k]));
      assert parts[..k + 1] == parts[..k] + [parts[k]];
      TotalSnoc(parts[..k], parts[k]);
      k := k + 1;
    }
    assert parts[..k] == parts;
    while sum / 65536 != 0
      invariant Fold(sum) == Fold(Total(parts) % ACC)
      decreases sum
    {
      sum := sum % 65536 + sum / 65536;
    }
    return 65535 - sum;
  }

  // ----- when the 32-bit accumulator is exact -----

  /** The folded sum has the residue of the true sum exactly when the carries lost from the
      accumulator are a multiple of 65535; in particular whenever the true sum fits. */
  lemma AccumulatorExactWhen(parts: seq<seq<Byte>>)
    ensures (65535 - ChecksumOf(parts)) % 65535 == Total(parts) % 65535 <==> (Total(parts) / ACC) % 65535 == 0
  {
    var n := Total(parts);
    FoldKeepsResidue(n % ACC);
    CarryResidue(n);
    ResidueShift(n % ACC, n / ACC);
  }

  /** A carry out of 32 bits is worth one modulo 65535. */
  lemma CarryResidue(n: nat)
    ensures n % 65535 == (n % ACC + n / ACC) % 65535
  {
    var q, r := n / ACC, n % ACC;
    assert n == ACC * q + r;
    assert n == (r + q) + 65535 * (65537 * q);
    ModAdd(r + q, 65537 * q);
  }

  lemma ResidueShift(r: nat, q: nat)
    ensures r % 65535 == (r + q) % 65535 <==> q % 65535 == 0
  {
    var a, b := r / 65535, r % 65535;
    var c, d := q / 65535, q % 65535;
    assert r + q == (b + d) + 65535 * (a + c);
    ModAdd(b + d, a + c);
    if b + d >= 65535 {
      assert b + d == (b + d - 65535) + 65535 * 1;
      ModAdd(b + d - 65535, 1);
    }
  }

  /** How many 16-bit words the routine adds up. */
  function Words(parts: seq<seq<Byte>>): nat { if parts == [] then 0 else (|parts[0]| + 1) / 2 + Words(parts[1..]) }

  lemma {:induction false} WordSumBound(b: seq<Byte>)
    ensures WordSum(b) <= 65535 * ((|b| + 1) / 2)
  {
    if |b| >= 2 {
      WordSumBound(b[2..]);
    }
  }

  lemma {:induction false} TotalBound(parts: seq<seq<Byte>>)
    ensures Total(parts) <= 65535 * Words(parts)
  {
    if parts != [] {
      WordSumBound(parts[0]);
      TotalBound(parts[1..]);
    }
  }

  /** Up to 65537 words nothing is lost from the accumulator. */
  lemma ExactWithin(parts: seq<seq<Byte>>)
    requires Words(parts) <= 65537
    ensures Total(parts) < ACC && (65535 - ChecksumOf(parts)) % 65535 == Total(parts) % 65535
  {
    TotalBound(parts);
    AccumulatorExactWhen(parts);
  }

  lemma {:induction false} OnesSum(n: nat)
    ensures WordSum(seq(2 * n + 1, _ => 255)) == 65535 * n + 65280
  {
    var b: seq<Byte> := seq(2 * n + 1, _ => 255);
    if n > 0 {
      OnesSum(n - 1);
      assert b[2..] == seq(2 * (n - 1) + 1, _ => 255);
    }
  }

  /** One word more can be enough to miss the residue. */
  lemma BoundIsTight()
    ensures var parts := [seq(131075, _ => 255)];
            Words(parts) == 65538 && (65535 - ChecksumOf(parts)) % 65535 != Total(parts) % 65535
  {
    var b: seq<Byte> := seq(131075, _ => 255);
    OnesSum(65537);
    assert |[b][1..]| == 0;
    assert Words([b]) == 65538;
    assert Total([b]) == WordSum(b) == 65535 * 65537 + 65280;
    AccumulatorExactWhen([b]);
  }

  /** Storing a value in a zeroed word at an even offset adds the value to the sum. */
  lemma FieldAdds(b: seq<Byte>, at: nat, v: nat)
    requires at % 2 == 0 && at + 2 <= |b| && b[at] == 0 && b[at + 1] == 0 && v < 65536
    ensures WordSum(Put(b, at, BigEndian(v, 2))) == WordSum(b) + v
  {
    var field: seq<Byte> := BigEndian(v, 2);
    assert BigEndian(v / 256, 1) == [(v / 256) % 256];
    assert field == [v / 256, v % 256];
    EvenSplit(b[..at], b[at..]);
    assert b[..at] + b[at..] == b;
    EvenSplit(b[..at], field + b[at + 2..]);
    assert Put(b, at, field) == b[..at] + (field + b[at + 2..]);
    assert b[at..][2..] == b[at + 2..];
    assert (field + b[at + 2..])[2..] == b[at + 2..];
  }

  lemma FoldMultiple(k: nat)
    requires k > 0
    ensures Fold(65535 * k) == 65535
  {
    FoldIs(65535 * k);
    assert 65535 * k - 1 == 65534 + 65535 * (k - 1);
    ModAdd(65534, k - 1);
  }

  /** Complementing the folded sum and adding it, with zero sent as all ones, verifies to zero. */
  lemma ComplementVerifies(n: nat, c: nat)
    requires n + 65535 < ACC
    requires c == 65535 - Fold(n) || (Fold(n) == 65535 && c == 65535)
    ensures Fold((n + c) % ACC) == 65535
  {
    FoldIs(n);
    if n == 0 {
      FoldMultiple(1);
    } else {
      var q, r := (n - 1) / 65535, (n - 1) % 65535;
      var k := if c == 65535 - Fold(n) then q + 1 else q + 2;
      assert n + c == 65535 * k;
      FoldMultiple(k);
    }
    assert (n + c) % ACC == n + c;
  }
}

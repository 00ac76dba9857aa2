/**
 What splitting the input into parts does to the checksum. A part that starts at an odd offset
 has its bytes in the other halves of the words, so what matters is how far its bytes at even
 positions and those at odd positions differ in sum.
 */
module ChecksumSplits {
  import opened ByteBuffer
  import opened InternetChecksum

  function Evens(b: seq<Byte>): nat { if b == [] then 0 else b[0] as int + Odds(b[1..]) }

  function Odds(b: seq<Byte>): nat { if b == [] then 0 else Evens(b[1..]) }

  lemma {:induction false} WordSumIs(b: seq<Byte>)
    ensures WordSum(b) == 256 * Evens(b) + Odds(b)
  {
    if |b| >= 2 {
      WordSumIs(b[2..]);
      assert b[1..][1..] == b[2..];
    } else if |b| == 1 {
      assert |b[1..]| == 0;
    }
  }

  lemma {:induction false} SumsSplit(a: seq<Byte>, b: seq<Byte>)
    ensures Evens(a + b) == Evens(a) + if |a| % 2 == 0 then Evens(b) else Odds(b)
    ensures Odds(a + b) == Odds(a) + if |a| % 2 == 0 then Odds(b) else Evens(b)
  {
    if a == [] {
      assert a + b == b;
    } else {
      SumsSplit(a[1..], b);
      assert (a + b)[1..] == a[1..] + b;
    }
  }

  /** How much a part weighs more when it starts at this offset, in units of 255. */
  function Shift(b: seq<Byte>, at: nat): int { if at % 2 == 0 then 0 else Odds(b) - Evens(b) }

  function Skew(parts: seq<seq<Byte>>, at: nat): int {
    if parts == [] then 0 else Shift(parts[0], at) + Skew(parts[1..], at + |parts[0]|)
  }

  lemma SplitSum(a: seq<Byte>, b: seq<Byte>)
    ensures WordSum(a + b) == WordSum(a) + WordSum(b) + 255 * Shift(b, |a|)
  {
    WordSumIs(a);
    WordSumIs(b);
    WordSumIs(a + b);
    SumsSplit(a, b);
  }

  /** Two parts sum like the whole exactly at an even offset, or when the second part's bytes
      weigh the same in either half of the words. */
  lemma SplitExactlyWhen(a: seq<Byte>, b: seq<Byte>)
    ensures WordSum(a + b) == WordSum(a) + WordSum(b) <==> |a| % 2 == 0 || Evens(b) == Odds(b)
  {
    SplitSum(a, b);
  }

  lemma ConcatStep(before: seq<Byte>, p: seq<Byte>, rest: seq<seq<Byte>>)
    ensures before + Concat([p] + rest) == before + p + Concat(rest)
    ensures Total([p] + rest) == WordSum(p) + Total(rest)
    ensures Skew([p] + rest, |before|) == Shift(p, |before|) + Skew(rest, |before + p|)
  {
    assert ([p] + rest)[1..] == rest;
    assert before + (p + Concat(rest)) == before + p + Concat(rest);
  }

  lemma {:induction false} PartsAfter(before: seq<Byte>, parts: seq<seq<Byte>>)
    ensures WordSum(before + Concat(parts)) == WordSum(before) + Total(parts) + 255 * Skew(parts, |before|)
    decreases parts
  {
    if parts == [] {
      assert before + Concat(parts) == before;
    } else {
      var p, rest := parts[0], parts[1..];
      SplitSum(before, p);
      PartsAfter(before + p, rest);
      ConcatStep(before, p, rest);
      assert parts == [p] + rest;
    }
  }

  lemma PartsSum(parts: seq<seq<Byte>>)
    ensures WordSum(Concat(parts)) == Total(parts) + 255 * Skew(parts, 0)
  {
    PartsAfter([], parts);
    assert [] + Concat(parts) == Concat(parts);
  }

  /** A list of parts sums like its concatenation exactly when the skews of its parts cancel. */
  lemma PartsSumExactlyWhen(parts: seq<seq<Byte>>)
    ensures Total(parts) == WordSum(Concat(parts)) <==> Skew(parts, 0) == 0
  {
    PartsSum(parts);
  }

  /** Modulo 65535 it does exactly when they cancel modulo 257. */
  lemma ResiduesAgreeExactlyWhen(parts: seq<seq<Byte>>)
    ensures Total(parts) % 65535 == WordSum(Concat(parts)) % 65535 <==> Skew(parts, 0) % 257 == 0
  {
    PartsSum(parts);
    ScaledResidue(Total(parts), WordSum(Concat(parts)), Skew(parts, 0));
  }

  lemma ScaledResidue(x: nat, y: nat, k: int)
    requires y == x + 255 * k
    ensures x % 65535 == y % 65535 <==> k % 257 == 0
  {
    var q, r := k / 257, k % 257;
    assert k == 257 * q + r;
    assert y == x + 255 * r + 65535 * q;
    var a, b := x / 65535, x % 65535;
    var c, d := y / 65535, y % 65535;
    assert 65535 * (c - a - q) == b + 255 * r - d;
    assert 0 <= 255 * r <= 65280;
    if b == d || r == 0 {
      assert -65535 < 65535 * (c - a - q) < 65535;
      assert c - a - q == 0;
    }
  }

  lemma {:induction false} ZeroTogether(parts: seq<seq<Byte>>)
    ensures Total(parts) == 0 <==> WordSum(Concat(parts)) == 0
  {
    if parts != [] {
      ZeroTogether(parts[1..]);
      WordSumIs(parts[0]);
      WordSumIs(Concat(parts[1..]));
      WordSumIs(parts[0] + Concat(parts[1..]));
      SumsSplit(parts[0], Concat(parts[1..]));
    }
  }

  lemma SameFold(x: nat, y: nat)
    requires x == 0 <==> y == 0
    ensures Fold(x) == Fold(y) <==> x % 65535 == y % 65535
  {
    FoldKeepsResidue(x);
    FoldKeepsResidue(y);
    var a, b := Fold(x), Fold(y);
    assert a % 65535 == (if a == 65535 then 0 else a) && b % 65535 == (if b == 65535 then 0 else b);
  }

  lemma ChecksumWithin(parts: seq<seq<Byte>>)
    requires Words(parts) <= 65537
    ensures ChecksumOf(parts) == 65535 - Fold(Total(parts))
  {
    ExactWithin(parts);
    assert Total(parts) % ACC == Total(parts);
  }

  lemma {:induction false} WholeHasFewerWords(parts: seq<seq<Byte>>)
    ensures Words([Concat(parts)]) == (|Concat(parts)| + 1) / 2 <= Words(parts)
  {
    assert |[Concat(parts)][1..]| == 0;
    if parts != [] {
      WholeHasFewerWords(parts[1..]);
    }
  }

  /** Within the accumulator's range the checksums agree exactly under that condition. */
  lemma ChecksumsAgreeExactlyWhen(parts: seq<seq<Byte>>)
    requires Words(parts) <= 65537
    ensures ChecksumOf(parts) == ChecksumOf([Concat(parts)]) <==> Skew(parts, 0) % 257 == 0
  {
    WholeHasFewerWords(parts);
    ChecksumWithin(parts);
    ChecksumWithin([Concat(parts)]);
    TotalOne(Concat(parts));
    ResiduesAgreeExactlyWhen(parts);
    ZeroTogether(parts);
    SameFold(Total(parts), Total([Concat(parts)]));
  }

  /** Odd parts can differ, and need not. */
  lemma OddPartsDiffer()
    ensures Total([[1], [2]]) != WordSum(Concat([[1], [2]]))
    ensures Total([[1], [0]]) == WordSum(Concat([[1], [0]]))
  {
    var one: seq<Byte>, two: seq<Byte>, zero: seq<Byte> := [1], [2], [0];
    assert |one[1..]| == 0 && |two[1..]| == 0 && |zero[1..]| == 0;
    assert [one, two][1..] == [two] && [one, zero][1..] == [zero] && |[two][1..]| == 0 && |[zero][1..]| == 0;
    assert Skew([two], 1) == -2 && Skew([zero], 1) == 0;
    PartsSumExactlyWhen([one, two]);
    PartsSumExactlyWhen([one, zero]);
  }
}

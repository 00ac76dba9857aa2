/**
 The staging of a capture: five announced row lengths are checked, summed and carved
 out of one backing buffer.
 */
module CaptureRows {
  import opened PlatformSlot
  import opened PlatformProtocol
  import opened Sums

  /** The staging limit is exactly the sum of the row maxima, so rows within their own maxima
      always fit: the running-total check never refuses on its own. */
  lemma MaximaFillTheLimit(lengths: seq<nat>)
    requires |lengths| == 5 && forall i | 0 <= i < 5 :: lengths[i] <= MAXIMA[i]
    ensures Sum(MAXIMA) == STAGING_LIMIT && Sum(lengths) <= STAGING_LIMIT
  {
    SumMonotone(lengths, MAXIMA);
    assert MAXIMA[1..] == [1118299, 512, 128, 196608];
    assert MAXIMA[1..][1..] == [512, 128, 196608];
    assert MAXIMA[1..][1..][1..] == [128, 196608];
    assert MAXIMA[1..][1..][1..][1..] == [196608];
    assert MAXIMA[1..][1..][1..][1..][1..] == [];
  }

  /** Row i is [ends[i], ends[i + 1]): consecutive rows that cover the backing exactly. */
  predicate Partition(lengths: seq<nat>, ends: seq<nat>, total: nat) {
    && |ends| == |lengths| + 1 && ends[0] == 0 && ends[|lengths|] == total
    && forall i | 0 <= i < |lengths| :: ends[i + 1] == ends[i] + lengths[i]
  }

  /** withCaptureV1's two loops: validation with a running total, then the rows. */
  method StageRows(lengths: seq<nat>) returns (ok: bool, total: nat, ends: seq<nat>)
    requires |lengths| == 5
    ensures ok <==>
              && 0 < lengths[0] <= 1405996 && 0 < lengths[1] <= 1118299 && 0 < lengths[2] <= 512
              && 0 < lengths[3] <= 128 && 0 < lengths[4] <= 196608
    ensures ok <==> RowsFit(lengths)
    ensures ok ==> total == Sum(lengths) && total <= 2721543 && Partition(lengths, ends, total)
  {
    ok, total := CheckRows(lengths);
    ends := [];
    if ok {
      ends := CarveRows(lengths);
    }
  }

  method CheckRows(lengths: seq<nat>) returns (ok: bool, total: nat)
    requires |lengths| == 5
    ensures ok <==> forall i | 0 <= i < 5 :: 0 < lengths[i] <= MAXIMA[i]
    ensures ok ==> total == Sum(lengths) && total <= STAGING_LIMIT
  {
    total := 0;
    var i := 0;
    while i < 5
      invariant 0 <= i <= 5
      invariant total == Sum(lengths[..i]) && total <= STAGING_LIMIT
      invariant forall j | 0 <= j < i :: 0 < lengths[j] <= MAXIMA[j]
    {
      var n := lengths[i];
      if n == 0 || n > MAXIMA[i] || total > STAGING_LIMIT - n {
        if 0 < n <= MAXIMA[i] {
          FitsSoFar(lengths, i);
        }
        return false, 0;
      }
      assert lengths[..i + 1] == lengths[..i] + [n];
      SumSnoc(lengths[..i], n);
      total := total + n;
      i := i + 1;
    }
    assert lengths[..5] == lengths;
    ok := true;
  }

  method CarveRows(lengths: seq<nat>) returns (ends: seq<nat>)
    requires |lengths| == 5
    ensures Partition(lengths, ends, Sum(lengths))
  {
    ends := [0];
    var i := 0;
    while i < 5
      invariant 0 <= i <= 5 && |ends| == i + 1 && ends[0] == 0 && ends[i] == Sum(lengths[..i])
      invariant forall j | 0 <= j < i :: ends[j + 1] == ends[j] + lengths[j]
    {
      assert lengths[..i + 1] == lengths[..i] + [lengths[i]];
      SumSnoc(lengths[..i], lengths[i]);
      ends := ends + [ends[i] + lengths[i]];
      i := i + 1;
    }
    assert lengths[..5] == lengths;
  }

  /** While every row so far respects its maximum, the next one never overruns the limit. */
  lemma FitsSoFar(lengths: seq<nat>, i: nat)
    requires |lengths| == 5 && i < 5 && forall j | 0 <= j <= i :: lengths[j] <= MAXIMA[j]
    ensures Sum(lengths[..i]) + lengths[i] <= STAGING_LIMIT
  {
    var padded := lengths[..i + 1] + seq(4 - i, _ => 0);
    MaximaFillTheLimit(padded);
    SumSnoc(lengths[..i], lengths[i]);
    assert lengths[..i + 1] == lengths[..i] + [lengths[i]];
    SumPrefix(lengths[..i + 1], seq(4 - i, _ => 0));
  }
}

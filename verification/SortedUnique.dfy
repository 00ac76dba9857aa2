/**
 The receipt tools' sorted-and-deduplicated lists: a copy is sorted and then compacted in
 place behind a write index.
 */
module SortedUnique {
  import opened Sorting

  /** Each run of equal neighbours among the first n entries, once. */
  function CompactTo<T(==)>(s: seq<T>, n: nat): (c: seq<T>)
    requires n <= |s|
    ensures |c| <= n && (n > 0 ==> c != [] && c[|c| - 1] == s[n - 1])
  {
    if n == 0 then []
    else
      var c := CompactTo(s, n - 1);
      if c == [] || c[|c| - 1] != s[n - 1] then c + [s[n - 1]] else c
  }

  function Compact<T(==)>(s: seq<T>): seq<T> { CompactTo(s, |s|) }

  lemma {:induction false} CompactKeepsElements(s: seq<string>, n: nat)
    requires n <= |s|
    ensures forall x :: x in CompactTo(s, n) <==> x in s[..n]
  {
    if n > 0 {
      CompactKeepsElements(s, n - 1);
      assert s[..n] == s[..n - 1] + [s[n - 1]];
    }
  }

  /** On an ordered list what is left is strictly ordered. */
  lemma {:induction false} CompactIsStrict(s: seq<string>, n: nat)
    requires Ordered(s, StringLe) && n <= |s|
    ensures Ordered(CompactTo(s, n), StringLe) && Distinct(CompactTo(s, n))
  {
    if n > 0 {
      var c, last := CompactTo(s, n - 1), s[n - 1];
      CompactIsStrict(s, n - 1);
      CompactKeepsElements(s, n - 1);
      forall i | 0 <= i < |c|
        ensures StringLe(c[i], last)
      {
        assert c[i] in s[..n - 1];
      }
      if c != [] && c[|c| - 1] != last {
        forall i | 0 <= i < |c|
          ensures c[i] != last
        {
          if c[i] == last {
            StringLeAntisymmetric(c[i], c[|c| - 1]);
          }
        }
      }
    }
  }

  /** The result has the same elements, strictly ordered, and is shorter exactly when something
      was repeated. */
  lemma SortedUniqueIs(values: seq<string>)
    ensures var r := Compact(Sort(values, StringLe));
            && Elements(r) == Elements(values) && Ordered(r, StringLe) && Distinct(r)
            && |r| <= |values| && (|r| < |values| <==> !Distinct(values))
  {
    StringOrder();
    var s := Sort(values, StringLe);
    SortSorts(values, StringLe);
    CompactKeepsElements(s, |s|);
    assert s[..|s|] == s;
    CompactIsStrict(s, |s|);
    DistinctUpToOrder(s, values);
    DistinctByCounting(Compact(s));
    DistinctByCounting(values);
  }

  /** The result depends on the elements only, not on their order or repetition. */
  lemma SameElementsSameResult(a: seq<string>, b: seq<string>)
    requires Elements(a) == Elements(b)
    ensures Compact(Sort(a, StringLe)) == Compact(Sort(b, StringLe))
  {
    SortedUniqueIs(a);
    SortedUniqueIs(b);
    StrictlyOrderedIsUnique(Compact(Sort(a, StringLe)), Compact(Sort(b, StringLe)));
  }

  lemma {:induction false} StrictlyOrderedIsUnique(a: seq<string>, b: seq<string>)
    requires Ordered(a, StringLe) && Distinct(a) && Ordered(b, StringLe) && Distinct(b) && Elements(a) == Elements(b)
    ensures a == b
  {
    StringOrder();
    DistinctByCounting(a);
    DistinctByCounting(b);
    if a != [] {
      assert a[0] in Elements(a) && b[0] in Elements(b);
      var i :| 0 <= i < |b| && b[i] == a[0];
      var j :| 0 <= j < |a| && a[j] == b[0];
      assert StringLe(a[0], b[0]) && StringLe(b[0], a[0]);
      assert a[0] == b[0];
      assert a == [a[0]] + a[1..] && b == [b[0]] + b[1..];
      TailElements(a);
      TailElements(b);
      StrictlyOrderedIsUnique(a[1..], b[1..]);
    }
  }

  lemma TailElements(a: seq<string>)
    requires a != [] && Distinct(a)
    ensures Elements(a[1..]) == Elements(a) - {a[0]}
  {
    forall x
      ensures x in a[1..] <==> x in a && x != a[0]
    {
      if x in a && x != a[0] {
        var i :| 0 <= i < |a| && a[i] == x;
        assert a[1..][i - 1] == x;
      }
    }
  }

  method MakeSortedUnique(values: seq<string>) returns (r: seq<string>)
    ensures r == Compact(Sort(values, StringLe))
  {
    r := CompactInPlace(Sort(values, StringLe));
  }

  /** The compaction of the sorted copy behind the write index. */
  method CompactInPlace<T(==)>(sorted: seq<T>) returns (r: seq<T>)
    ensures r == Compact(sorted)
  {
    var result := new T[|sorted|](i requires 0 <= i < |sorted| => sorted[i]);
    var write, read := 0, 0;
    while read < result.Length
      invariant 0 <= write <= read <= result.Length == |sorted|
      invariant result[..write] == CompactTo(sorted, read)
      invariant forall k | read <= k < result.Length :: result[k] == sorted[k]
    {
      var value := result[read];
      ghost var kept, next := result[..write], CompactTo(sorted, read + 1);
      assert next == if write == 0 || kept[write - 1] != value then kept + [value] else kept;
      if write == 0 || result[write - 1] != value {
        write := Push(result, write, value);
      }
      assert result[..write] == next;
      read := read + 1;
    }
    r := result[..write];
  }

  method Push<T>(a: array<T>, write: nat, value: T) returns (after: nat)
    requires write < a.Length
    modifies a
    ensures after == write + 1 && a[..after] == old(a[..write]) + [value]
    ensures forall k | write < k < a.Length :: a[k] == old(a[k])
  {
    a[write] := value;
    after := write + 1;
  }
}

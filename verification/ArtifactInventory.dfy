/**
 The candidate's declared artifacts against the files found under its directory. Declared
 paths are collected in a map and the files in a list; equality of the two is decided by
 comparing counts and then looking every file up. The path syntax, the digests and the
 directory walk are parameters.
 */
module ArtifactInventory {
  import opened Sorting

  datatype Artifact = Artifact(path: string, size: int, sha256: string)

  datatype Digest = Unreadable | Read(size: int, sha256: string)

  /** The walk fails on an error, a symbolic link or a non-regular file; otherwise it lists files. */
  datatype Walk = WalkFails | Found(files: seq<string>)

  datatype Verdict =
    | Accepted
    | Invalid(path: string)
    | Mismatch(path: string)
    | NoWalk
    | Incomplete
    | Undeclared(path: string)

  datatype Disk = Disk(safe: string -> bool, hex: string -> bool, digest: string -> Digest, walk: Walk)

  function Paths(declared: seq<Artifact>): (p: seq<string>)
    ensures |p| == |declared| && forall i | 0 <= i < |p| :: p[i] == declared[i].path
  {
    seq(|declared|, i requires 0 <= i < |declared| => declared[i].path)
  }

  predicate WellFormed(a: Artifact, disk: Disk) { disk.safe(a.path) && a.size >= 1 && disk.hex(a.sha256) }

  predicate Matches(a: Artifact, disk: Disk) { disk.digest(a.path) == Read(a.size, a.sha256) }

  predicate Genuine(declared: seq<Artifact>, disk: Disk) {
    && Distinct(Paths(declared))
    && forall i | 0 <= i < |declared| :: WellFormed(declared[i], disk) && Matches(declared[i], disk)
  }

  /** Declarations are genuine on exactly these terms: safe paths, none twice, and for each a size
      and digest that are well formed and are those of the file. */
  lemma GenuineExactlyWhen(declared: seq<Artifact>, disk: Disk)
    ensures Genuine(declared, disk) <==>
              && (forall i, j | 0 <= i < j < |declared| :: declared[i].path != declared[j].path)
              && (forall i | 0 <= i < |declared| ::
                    var a := declared[i];
                    && disk.safe(a.path) && a.size > 0 && disk.hex(a.sha256)
                    && disk.digest(a.path).Read? && disk.digest(a.path).size == a.size
                    && disk.digest(a.path).sha256 == a.sha256)
  {
    var paths := Paths(declared);
    if Genuine(declared, disk) {
      forall i, j | 0 <= i < j < |declared|
        ensures declared[i].path != declared[j].path
      {
        assert paths[i] != paths[j];
      }
    }
  }

  /** The counting test: as many files as declared paths, and every file declared. */
  ghost predicate Counted(declared: seq<Artifact>, files: seq<string>) {
    |files| == |Elements(Paths(declared))| && Elements(files) <= Elements(Paths(declared))
  }

  method ValidateDeclaredArtifacts(declared: seq<Artifact>, disk: Disk, exact: bool) returns (v: Verdict)
    ensures v == Accepted <==>
              Genuine(declared, disk) && (exact ==> disk.walk.Found? && Counted(declared, disk.walk.files))
    ensures v.Undeclared? ==> disk.walk.Found? && v.path in disk.walk.files && v.path !in Paths(declared)
                              && forall p | p in disk.walk.files && p !in Paths(declared) :: StringLe(v.path, p)
    ensures v.Invalid? || v.Mismatch? ==> v.path in Paths(declared) && !Genuine(declared, disk)
  {
    var seen: map<string, bool> := map[];
    ghost var paths := Paths(declared);
    var i := 0;
    while i < |declared|
      invariant 0 <= i <= |declared|
      invariant seen.Keys == Elements(paths[..i])
      invariant forall j | 0 <= j < i :: WellFormed(declared[j], disk) && Matches(declared[j], disk)
      invariant Distinct(paths[..i])
    {
      var a := declared[i];
      assert paths[i] == a.path && paths[..i + 1] == paths[..i] + [a.path];
      if !disk.safe(a.path) || a.size < 1 || !disk.hex(a.sha256) || a.path in seen {
        if a.path in seen {
          assert a.path in paths[..i];
          ghost var j :| 0 <= j < i && paths[j] == a.path;
          assert !Distinct(paths);
        }
        return Invalid(a.path);
      }
      seen := seen[a.path := true];
      var d := disk.digest(a.path);
      if d.Unreadable? || d.size != a.size || d.sha256 != a.sha256 {
        assert !Matches(declared[i], disk);
        return Mismatch(a.path);
      }
      i := i + 1;
    }
    assert paths[..i] == paths;
    if !exact {
      return Accepted;
    }
    if disk.walk.WalkFails? {
      return NoWalk;
    }
    v := CompareInventory(declared, seen, disk.walk.files);
  }

  /** In an ordered list whose first entries are all declared, the next is below every undeclared one. */
  lemma LeastOfRest(actual: seq<string>, i: nat, paths: seq<string>, p: string)
    requires i < |actual| && Ordered(actual, StringLe) && p in actual && p !in paths
    requires forall j | 0 <= j < i :: actual[j] in paths
    ensures StringLe(actual[i], p)
  {
    var k :| 0 <= k < |actual| && actual[k] == p;
    if k == i {
      StringLeTotal(p, p);
    }
  }

  method CompareInventory(declared: seq<Artifact>, seen: map<string, bool>, files: seq<string>) returns (v: Verdict)
    requires seen.Keys == Elements(Paths(declared))
    ensures v in {Accepted, Incomplete} || (v.Undeclared? && v.path in files)
    ensures v == Accepted <==> Counted(declared, files)
    ensures v.Undeclared? ==> v.path !in Paths(declared)
                              && forall p | p in files && p !in Paths(declared) :: StringLe(v.path, p)
  {
    StringsSorted(files);
    var actual := Sort(files, StringLe);
    assert |seen| == |seen.Keys|;
    if |actual| != |seen| {
      return Incomplete;
    }
    var i := 0;
    while i < |actual|
      invariant 0 <= i <= |actual|
      invariant forall j | 0 <= j < i :: actual[j] in Paths(declared)
    {
      assert actual[i] in Elements(actual);
      assert actual[i] in seen <==> actual[i] in Elements(Paths(declared));
      if actual[i] !in seen {
        forall p | p in files && p !in Paths(declared)
          ensures StringLe(actual[i], p)
        {
          assert p in Elements(actual);
          LeastOfRest(actual, i, Paths(declared), p);
        }
        return Undeclared(actual[i]);
      }
      i := i + 1;
    }
    forall p | p in Elements(files)
      ensures p in Elements(Paths(declared))
    {
      assert p in Elements(actual);
      var k :| 0 <= k < |actual| && actual[k] == p;
    }
    v := Accepted;
  }

  /** Counting decides equality of the two path sets exactly when no file is listed twice. */
  lemma CountingIsExactWhen(declared: seq<Artifact>, files: seq<string>)
    requires Counted(declared, files)
    ensures Elements(files) == Elements(Paths(declared)) <==> Distinct(files)
  {
    SubsetByCounting(Elements(files), Elements(Paths(declared)));
    DistinctByCounting(files);
  }

  /** A walk lists each file once; then a candidate passes the count exactly when the declared
      paths are the files, no more and no fewer. */
  lemma InventoryIsExact(declared: seq<Artifact>, files: seq<string>)
    requires Distinct(files)
    ensures Counted(declared, files) <==> Elements(files) == Elements(Paths(declared))
  {
    DistinctByCounting(files);
    SubsetByCounting(Elements(files) * Elements(Paths(declared)), Elements(Paths(declared)));
    if Counted(declared, files) {
      CountingIsExactWhen(declared, files);
    }
  }

  /** A listing that repeats a file can hide a missing one. */
  lemma RepeatedListingHidesAFile()
    ensures var declared := [Artifact("a", 1, ""), Artifact("b", 1, "")];
            Counted(declared, ["a", "a"]) && Elements(["a", "a"]) != Elements(Paths(declared))
  {
    var declared := [Artifact("a", 1, ""), Artifact("b", 1, "")];
    var paths := Paths(declared);
    assert paths == ["a", "b"];
    assert "a" in Elements(paths) && paths[1] == "b" && "b" in Elements(paths);
    assert Elements(paths) == {"a", "b"};
    assert Elements(["a", "a"]) == {"a"};
    assert "b" !in {"a"};
  }
}

/**
 The timing summary: durations of every step gathered over several gate runs in a map of
 lists, and summarised only if every run has the same steps.
 */
module Timings {
  import opened Sorting
  import opened Percentiles

  datatype StepTiming = StepTiming(name: string, status: string, millis: int)

  datatype Record = Record(schema: string, millis: int, steps: seq<StepTiming>)

  /** A timing file that cannot be read or decoded is absent. */
  datatype File = Unusable | Usable(record: Record)

  datatype Line = Line(name: string, p50: int, p95: int)

  datatype Summary = Summary(runs: nat, p50: int, p95: int, steps: seq<Line>)

  datatype Result = NoFiles | BadFile(index: nat) | Absent(name: string) | Summarised(summary: Summary)

  const SCHEMA: string := "kurdistan-gate-timings-v1"

  function Names(steps: seq<StepTiming>): (n: seq<string>)
    ensures |n| == |steps| && forall i | 0 <= i < |n| :: n[i] == steps[i].name
  {
    seq(|steps|, i requires 0 <= i < |steps| => steps[i].name)
  }

  predicate StepStands(s: StepTiming) { s.name != "" && s.millis >= 0 && (s.status == "PASS" || s.status == "FAIL") }

  predicate RecordStands(r: Record) {
    && r.schema == SCHEMA && r.millis >= 0 && r.steps != []
    && Distinct(Names(r.steps)) && forall i | 0 <= i < |r.steps| :: StepStands(r.steps[i])
  }

  /** A run is summarised on exactly these terms: the schema, a duration, and steps under different
      names that each passed or failed in some time. */
  lemma StandsExactlyWhen(r: Record)
    ensures RecordStands(r) <==>
              && r.schema == "kurdistan-gate-timings-v1" && r.millis >= 0 && |r.steps| > 0
              && (forall i, j | 0 <= i < j < |r.steps| :: r.steps[i].name != r.steps[j].name)
              && (forall i | 0 <= i < |r.steps| ::
                    r.steps[i].name != "" && r.steps[i].millis >= 0 && r.steps[i].status in {"PASS", "FAIL"})
  {
    var names := Names(r.steps);
    assert forall i | 0 <= i < |names| :: names[i] == r.steps[i].name;
    if RecordStands(r) {
      forall i, j | 0 <= i < j < |r.steps|
        ensures r.steps[i].name != r.steps[j].name
      {
        assert names[i] != names[j];
      }
    }
  }

  predicate AllStand(files: seq<File>) {
    forall i | 0 <= i < |files| :: files[i].Usable? && RecordStands(files[i].record)
  }

  ghost function StepNames(r: Record): set<string> { Elements(Names(r.steps)) }

  /** The durations recorded under one name, in order. */
  function StepColumn(steps: seq<StepTiming>, name: string): seq<int> {
    if steps == [] then []
    else
      var last := steps[|steps| - 1];
      StepColumn(steps[..|steps| - 1], name) + if last.name == name then [last.millis] else []
  }

  function Column(files: seq<File>, name: string): seq<int> {
    if files == [] then []
    else
      var last := files[|files| - 1];
      Column(files[..|files| - 1], name) + if last.Usable? then StepColumn(last.record.steps, name) else []
  }

  function Totals(files: seq<File>): (t: seq<int>)
    requires forall i | 0 <= i < |files| :: files[i].Usable?
    ensures |t| == |files|
  {
    seq(|files|, i requires 0 <= i < |files| => files[i].record.millis)
  }

  /** A record whose names are distinct gives one duration under each of them and none elsewhere. */
  lemma {:induction false} StepColumnIs(steps: seq<StepTiming>, name: string)
    requires Distinct(Names(steps))
    ensures |StepColumn(steps, name)| == if name in Elements(Names(steps)) then 1 else 0
    ensures forall i | 0 <= i < |steps| && steps[i].name == name :: StepColumn(steps, name) == [steps[i].millis]
  {
    if steps != [] {
      var rest := steps[..|steps| - 1];
      var names := Names(steps);
      assert Names(rest) == names[..|steps| - 1];
      assert names == Names(rest) + [names[|steps| - 1]];
      StepColumnIs(rest, name);
      if steps[|steps| - 1].name == name {
        assert name == names[|steps| - 1];
        assert name !in Names(rest);
      }
    }
  }

  predicate Has(file: File, name: string) { file.Usable? && name in Names(file.record.steps) }

  function CountHas(files: seq<File>, name: string): nat {
    if files == [] then 0
    else CountHas(files[..|files| - 1], name) + if Has(files[|files| - 1], name) then 1 else 0
  }

  lemma {:induction false} ColumnCounts(files: seq<File>, name: string)
    requires AllStand(files)
    ensures |Column(files, name)| == CountHas(files, name)
  {
    if files != [] {
      ColumnCounts(files[..|files| - 1], name);
      StepColumnIs(files[|files| - 1].record.steps, name);
    }
  }

  lemma {:induction false} CountHasIs(files: seq<File>, name: string)
    ensures CountHas(files, name) <= |files|
    ensures CountHas(files, name) == |files| <==> forall i | 0 <= i < |files| :: Has(files[i], name)
    ensures CountHas(files, name) == 0 <==> forall i | 0 <= i < |files| :: !Has(files[i], name)
  {
    if files != [] {
      var last := |files| - 1;
      CountHasIs(files[..last], name);
      assert forall i | 0 <= i < last :: files[..last][i] == files[i];
    }
  }

  /** A name's column is as long as there are runs exactly when no run lacks it. */
  lemma ColumnIsFull(files: seq<File>, name: string)
    requires AllStand(files)
    ensures |Column(files, name)| == |files| <==> forall i | 0 <= i < |files| :: name in StepNames(files[i].record)
    ensures Column(files, name) != [] <==> exists i | 0 <= i < |files| :: name in StepNames(files[i].record)
  {
    ColumnCounts(files, name);
    CountHasIs(files, name);
    assert forall i | 0 <= i < |files| :: Has(files[i], name) <==> name in StepNames(files[i].record);
  }

  ghost predicate SameSteps(files: seq<File>)
    requires AllStand(files)
  {
    forall i, j | 0 <= i < |files| && 0 <= j < |files| :: StepNames(files[i].record) == StepNames(files[j].record)
  }

  /** The map under construction: one list for every name seen, and that list its column. */
  ghost predicate Gathered(byStep: map<string, seq<int>>, files: seq<File>, steps: seq<StepTiming>) {
    forall name: string ::
      var column := Column(files, name) + StepColumn(steps, name);
      (name in byStep <==> column != []) && (name in byStep ==> byStep[name] == column)
  }

  lemma GatherStep(byStep: map<string, seq<int>>, files: seq<File>, steps: seq<StepTiming>, j: nat,
                   byStep': map<string, seq<int>>)
    requires j < |steps| && Gathered(byStep, files, steps[..j])
    requires var s := steps[j];
             byStep' == byStep[s.name := (if s.name in byStep then byStep[s.name] else []) + [s.millis]]
    ensures Gathered(byStep', files, steps[..j + 1])
  {
    assert steps[..j + 1][..j] == steps[..j];
    forall name: string
      ensures var column := Column(files, name) + StepColumn(steps[..j + 1], name);
              (name in byStep' <==> column != []) && (name in byStep' ==> byStep'[name] == column)
    {
      var before := Column(files, name) + StepColumn(steps[..j], name);
      assert name in byStep <==> before != [];
      if name == steps[j].name {
        assert Column(files, name) + StepColumn(steps[..j + 1], name) == before + [steps[j].millis];
      }
    }
  }

  lemma GatherFile(byStep: map<string, seq<int>>, files: seq<File>, r: nat)
    requires r < |files| && files[r].Usable? && Gathered(byStep, files[..r], files[r].record.steps)
    ensures Gathered(byStep, files[..r + 1], [])
  {
    assert files[..r + 1][..r] == files[..r];
    forall name: string
      ensures Column(files[..r + 1], name) + StepColumn([], name)
              == Column(files[..r], name) + StepColumn(files[r].record.steps, name)
    {
    }
  }

  /** The first j names are distinct, and they are the keys of the map. */
  ghost predicate Scanned(seen: map<string, bool>, names: seq<string>, j: nat)
    requires j <= |names|
  {
    seen.Keys == Elements(names[..j]) && Distinct(names[..j])
  }

  lemma ScanStep(seen: map<string, bool>, names: seq<string>, j: nat)
    requires j < |names| && Scanned(seen, names, j)
    ensures names[j] in seen ==> !Distinct(names)
    ensures names[j] !in seen ==> Scanned(seen[names[j] := true], names, j + 1)
  {
    assert names[..j + 1] == names[..j] + [names[j]];
    if names[j] in seen {
      assert names[j] in names[..j];
    }
  }

  /** One duration appended to its step's list. */
  method AddSample(byStep: map<string, seq<int>>, ghost files: seq<File>, steps: seq<StepTiming>, j: nat)
    returns (grown: map<string, seq<int>>)
    requires j < |steps| && Gathered(byStep, files, steps[..j])
    ensures Gathered(grown, files, steps[..j + 1])
  {
    var s := steps[j];
    grown := byStep[s.name := (if s.name in byStep then byStep[s.name] else []) + [s.millis]];
    GatherStep(byStep, files, steps, j, grown);
  }

  /** What the inner loop has established of the first j steps. */
  ghost predicate Checked(seen: map<string, bool>, record: Record, j: nat)
    requires j <= |record.steps|
  {
    Scanned(seen, Names(record.steps), j) && forall i | 0 <= i < j :: StepStands(record.steps[i])
  }

  lemma CheckStep(seen: map<string, bool>, record: Record, j: nat)
    requires j < |record.steps| && Checked(seen, record, j)
    ensures var s := record.steps[j];
            if StepStands(s) && s.name !in seen then Checked(seen[s.name := true], record, j + 1)
            else !RecordStands(record)
  {
    ScanStep(seen, Names(record.steps), j);
  }

  lemma CheckedAll(seen: map<string, bool>, record: Record)
    requires Checked(seen, record, |record.steps|)
    requires record.schema == SCHEMA && record.millis >= 0 && record.steps != []
    ensures RecordStands(record)
  {
    var names := Names(record.steps);
    assert names[..|record.steps|] == names;
  }

  /** The inner loop: one run's steps into the map, or the discovery that the run is invalid. */
  method GatherRun(byStep: map<string, seq<int>>, record: Record, ghost files: seq<File>)
    returns (ok: bool, grown: map<string, seq<int>>)
    requires record.schema == SCHEMA && record.millis >= 0 && record.steps != []
    requires Gathered(byStep, files, [])
    ensures ok <==> RecordStands(record)
    ensures ok ==> Gathered(grown, files, record.steps)
  {
    var seen: map<string, bool> := map[];
    grown := byStep;
    var j := 0;
    assert record.steps[..0] == [];
    while j < |record.steps|
      invariant 0 <= j <= |record.steps|
      invariant Checked(seen, record, j)
      invariant Gathered(grown, files, record.steps[..j])
    {
      var s := record.steps[j];
      CheckStep(seen, record, j);
      if s.name == "" || s.name in seen || s.millis < 0 || (s.status != "PASS" && s.status != "FAIL") {
        return false, grown;
      }
      seen := seen[s.name := true];
      grown := AddSample(grown, files, record.steps, j);
      j := j + 1;
    }
    assert record.steps[..j] == record.steps;
    CheckedAll(seen, record);
    ok := true;
  }

  /** The outer loop: the index of the first bad file, or the full map and the totals. */
  method Gather(files: seq<File>) returns (bad: nat, totals: seq<int>, byStep: map<string, seq<int>>)
    ensures bad <= |files| && AllStand(files[..bad])
    ensures bad < |files| ==> !(files[bad].Usable? && RecordStands(files[bad].record))
    ensures bad == |files| ==> totals == Totals(files) && Gathered(byStep, files, [])
  {
    totals, byStep := [], map[];
    bad := 0;
    while bad < |files|
      invariant 0 <= bad <= |files| && AllStand(files[..bad])
      invariant totals == Totals(files[..bad])
      invariant Gathered(byStep, files[..bad], [])
    {
      if files[bad].Unusable? {
        return;
      }
      var record := files[bad].record;
      if record.schema != SCHEMA || record.millis < 0 || |record.steps| == 0 {
        return;
      }
      totals := totals + [record.millis];
      var ok, grown := GatherRun(byStep, record, files[..bad]);
      if !ok {
        return;
      }
      byStep := grown;
      GatherFile(byStep, files, bad);
      bad := bad + 1;
    }
    assert files[..bad] == files;
  }

  lemma OneMore(names: seq<string>, name: string)
    requires name !in Elements(names) && Distinct(names)
    ensures Elements(names + [name]) == Elements(names) + {name} && Distinct(names + [name])
  {
  }

  /** The keys of the map in some order, then sorted. */
  method SortedNames(byStep: map<string, seq<int>>) returns (names: seq<string>)
    ensures Elements(names) == byStep.Keys && Ordered(names, StringLe) && Distinct(names)
  {
    names := [];
    var left := byStep.Keys;
    while left != {}
      invariant Elements(names) + left == byStep.Keys && Elements(names) !! left && Distinct(names)
      decreases |left|
    {
      var name :| name in left;
      OneMore(names, name);
      left := left - {name};
      names := names + [name];
    }
    StringsSorted(names);
    names := Sort(names, StringLe);
  }

  /** Every common step, in order of name, with the percentiles of its durations over the runs. */
  ghost predicate Faithful(summary: Summary, files: seq<File>)
    requires AllStand(files)
  {
    && summary.runs == |files|
    && IsPercentile(Totals(files), summary.p50, 50) && IsPercentile(Totals(files), summary.p95, 95)
    && Ordered(LineNames(summary.steps), StringLe) && Distinct(LineNames(summary.steps))
    && (forall i | 0 <= i < |files| :: StepNames(files[i].record) == Elements(LineNames(summary.steps)))
    && forall k | 0 <= k < |summary.steps| ::
         var line := summary.steps[k];
         && |Column(files, line.name)| == |files|
         && IsPercentile(Column(files, line.name), line.p50, 50) && IsPercentile(Column(files, line.name), line.p95, 95)
  }

  function LineNames(lines: seq<Line>): seq<string> {
    seq(|lines|, i requires 0 <= i < |lines| => lines[i].name)
  }

  /** The second loop: one line for each name, or the first name some run lacks. */
  method Lines(names: seq<string>, byStep: map<string, seq<int>>, runs: nat)
    returns (missing: bool, at: nat, lines: seq<Line>)
    requires forall name | name in names :: name in byStep && byStep[name] != []
    ensures missing ==> at < |names| && |byStep[names[at]]| != runs
    ensures !missing ==> LineNames(lines) == names && forall k | 0 <= k < |names| ::
              && |byStep[names[k]]| == runs
              && IsPercentile(byStep[names[k]], lines[k].p50, 50) && IsPercentile(byStep[names[k]], lines[k].p95, 95)
  {
    lines, at := [], 0;
    while at < |names|
      invariant 0 <= at <= |names| && |lines| == at
      invariant forall k | 0 <= k < at ::
          && lines[k].name == names[k] && |byStep[names[k]]| == runs
          && IsPercentile(byStep[names[k]], lines[k].p50, 50) && IsPercentile(byStep[names[k]], lines[k].p95, 95)
    {
      if |byStep[names[at]]| != runs {
        return true, at, lines;
      }
      var p50, p95 := MedianAndTail(byStep[names[at]]);
      lines := lines + [Line(names[at], p50, p95)];
      at := at + 1;
    }
    missing := false;
  }

  /** A summary appears exactly when there is a file, every file stands and every run has the same
      step names; the failures name a first bad file or a step some run lacks. */
  method Summarise(files: seq<File>) returns (r: Result)
    ensures r.Summarised? <==> files != [] && AllStand(files) && SameSteps(files)
    ensures r.Summarised? ==> Faithful(r.summary, files)
    ensures r.BadFile? ==> r.index < |files| && AllStand(files[..r.index])
                           && !(files[r.index].Usable? && RecordStands(files[r.index].record))
    ensures r.Absent? ==> AllStand(files) && (exists i | 0 <= i < |files| :: r.name in StepNames(files[i].record))
                          && exists i | 0 <= i < |files| :: r.name !in StepNames(files[i].record)
    ensures r.NoFiles? <==> files == []
  {
    if |files| == 0 {
      return NoFiles;
    }
    var bad, totals, byStep := Gather(files);
    if bad < |files| {
      return BadFile(bad);
    }
    assert files[..bad] == files;
    var p50, p95 := MedianAndTail(totals);
    var names := SortedNames(byStep);
    KeysAreNames(byStep, files);
    forall name | name in names
      ensures name in byStep && byStep[name] != []
    {
      assert name in Elements(names);
    }
    var missing, at, lines := Lines(names, byStep, |totals|);
    if missing {
      assert names[at] in Elements(names);
      ColumnIsFull(files, names[at]);
      return Absent(names[at]);
    }
    EveryNameFull(files, names, byStep);
    r := Summarised(Summary(|totals|, p50, p95, lines));
  }

  lemma KeyIsName(byStep: map<string, seq<int>>, files: seq<File>, name: string)
    requires AllStand(files) && Gathered(byStep, files, [])
    ensures name in byStep <==> exists i | 0 <= i < |files| :: name in StepNames(files[i].record)
    ensures name in byStep ==> byStep[name] == Column(files, name) && byStep[name] != []
  {
    ColumnIsFull(files, name);
    assert Column(files, name) + StepColumn([], name) == Column(files, name);
  }

  lemma KeysAreNames(byStep: map<string, seq<int>>, files: seq<File>)
    requires AllStand(files) && Gathered(byStep, files, [])
    ensures forall name: string :: name in byStep <==> exists i | 0 <= i < |files| :: name in StepNames(files[i].record)
    ensures forall name: string | name in byStep :: byStep[name] == Column(files, name) && byStep[name] != []
  {
    forall name: string
      ensures name in byStep <==> exists i | 0 <= i < |files| :: name in StepNames(files[i].record)
      ensures name in byStep ==> byStep[name] == Column(files, name) && byStep[name] != []
    {
      KeyIsName(byStep, files, name);
    }
  }

  lemma EveryNameFull(files: seq<File>, names: seq<string>, byStep: map<string, seq<int>>)
    requires AllStand(files) && Gathered(byStep, files, []) && Elements(names) == byStep.Keys
    requires forall k | 0 <= k < |names| :: |byStep[names[k]]| == |files|
    ensures SameSteps(files)
    ensures forall i | 0 <= i < |files| :: StepNames(files[i].record) == Elements(names)
  {
    KeysAreNames(byStep, files);
    forall i, name: string | 0 <= i < |files|
      ensures name in StepNames(files[i].record) <==> name in Elements(names)
    {
      if name in names {
        var k :| 0 <= k < |names| && names[k] == name;
        assert name in Elements(names);
        ColumnIsFull(files, name);
      }
    }
    forall i | 0 <= i < |files|
      ensures StepNames(files[i].record) == Elements(names)
    {
    }
  }
}

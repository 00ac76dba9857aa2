/**
 The gate's execution record and the receipt issuer's check of it. The producer runs a list
 of steps and writes down what happened; the checker, in another program, accepts the record
 against the commands a proof policy lists. What a step does is a function of its position:
 nothing is assumed of the executor.
 */
module GateEvidence {

  // ----- the producer -----

  datatype Step = Step(name: string, program: string, args: seq<string>)

  /** How running a step ended: no error, an exit error with its code, or another error. */
  datatype Run = Succeeds | Exits(code: int) | Breaks

  type Executor = (nat, Step) -> Run

  datatype Options = Options(quick: bool, android: bool, androidOnly: bool, proof: string, receipt: string,
                             timings: string)

  datatype StepRecord = StepRecord(name: string, command: seq<string>, status: string, exitCode: int)

  datatype Record = Record(schema: string, proof: string, quick: bool, android: bool, androidOnly: bool,
                           terminal: bool, status: string, steps: seq<StepRecord>)

  const SCHEMA: string := "kurdistan-gate-execution-v1"

  /** The flag combinations the gate runs at all. */
  predicate OptionsStand(o: Options, knownProof: string -> bool, clean: string -> string) {
    && (o.proof != "" ==> !o.quick && knownProof(o.proof) && !(o.android || o.androidOnly))
    && !(o.android && o.androidOnly)
    && !(o.receipt != "" && o.timings != "" && clean(o.receipt) == clean(o.timings))
  }

  function ExitCode(run: Run): int {
    match run
    case Succeeds => 0
    case Exits(code) => code
    case Breaks => -1
  }

  function CommandOf(step: Step): seq<string> { [step.program] + step.args }

  function Commands(steps: seq<Step>): seq<seq<string>> {
    seq(|steps|, i requires 0 <= i < |steps| => CommandOf(steps[i]))
  }

  ghost predicate AllSucceed(steps: seq<Step>, execute: Executor) {
    forall i | 0 <= i < |steps| :: execute(i, steps[i]).Succeeds?
  }

  /** The step's own name and command, whether it succeeded, and the code it ended with. */
  predicate Tells(s: StepRecord, step: Step, run: Run) {
    && s.name == step.name && s.command == [step.program] + step.args
    && match run
       case Succeeds => s.status == "PASS" && s.exitCode == 0
       case Exits(code) => s.status == "FAIL" && s.exitCode == code
       case Breaks => s.status == "FAIL" && s.exitCode == -1
  }

  /** The record says of every step, in order, what the executor did. */
  ghost predicate Describes(record: Record, o: Options, steps: seq<Step>, execute: Executor) {
    && record.schema == "kurdistan-gate-execution-v1" && record.proof == o.proof && record.quick == o.quick
    && record.android == o.android && record.androidOnly == o.androidOnly && record.terminal
    && |record.steps| == |steps|
    && (forall i | 0 <= i < |steps| :: Tells(record.steps[i], steps[i], execute(i, steps[i])))
    && record.status == if AllSucceed(steps, execute) then "PASS" else "FAIL"
  }

  /** The step loop. Every step runs, whatever the ones before it did. */
  method RunGate(o: Options, steps: seq<Step>, execute: Executor, receiptWritten: bool, timingsWritten: bool)
    returns (record: Record, timed: seq<string>, failed: seq<string>, code: int)
    ensures Describes(record, o, steps, execute)
    ensures record.terminal && |record.steps| == |steps| && (record.status == "PASS" <==> AllSucceed(steps, execute))
    ensures forall i | 0 <= i < |steps| ::
              && record.steps[i].name == steps[i].name
              && record.steps[i].command == [steps[i].program] + steps[i].args
              && (record.steps[i].status == "PASS" <==> execute(i, steps[i]).Succeeds?)
              && record.steps[i].exitCode == match execute(i, steps[i])
                                             case Succeeds => 0
                                             case Exits(c) => c
                                             case Breaks => -1
    ensures |timed| == |steps| && forall i | 0 <= i < |steps| :: timed[i] == steps[i].name
    ensures failed == [] <==> AllSucceed(steps, execute)
    ensures code == 0 <==>
              AllSucceed(steps, execute) && (o.receipt != "" ==> receiptWritten) && (o.timings != "" ==> timingsWritten)
    ensures code == 0 || code == 1
  {
    var records: seq<StepRecord> := [];
    timed, failed := [], [];
    var i := 0;
    while i < |steps|
      invariant 0 <= i <= |steps| && |records| == i && |timed| == i
      invariant forall j | 0 <= j < i :: Tells(records[j], steps[j], execute(j, steps[j]))
      invariant forall j | 0 <= j < i :: timed[j] == steps[j].name
      invariant failed == [] <==> forall j | 0 <= j < i :: execute(j, steps[j]).Succeeds?
    {
      var s := steps[i];
      var run := execute(i, s);
      var status := "PASS";
      if !run.Succeeds? {
        status := "FAIL";
        failed := failed + [s.name];
      }
      records := records + [StepRecord(s.name, [s.program] + s.args, status, ExitCode(run))];
      timed := timed + [s.name];
      i := i + 1;
    }
    var status := "PASS";
    if |failed| > 0 {
      status := "FAIL";
    }
    record := Record(SCHEMA, o.proof, o.quick, o.android, o.androidOnly, true, status, records);
    var outputFailed := (o.receipt != "" && !receiptWritten) || (o.timings != "" && !timingsWritten);
    code := if |failed| > 0 || outputFailed then 1 else 0;
  }

  // ----- the checker -----

  predicate TerminalProof(record: Record) {
    && record.schema == SCHEMA && record.proof != "" && !record.quick && !record.android && !record.androidOnly
    && record.terminal && (record.status == "PASS" || record.status == "FAIL")
  }

  method StringSlicesEqual(left: seq<string>, right: seq<string>) returns (equal: bool)
    ensures equal <==> left == right
  {
    if |left| != |right| {
      return false;
    }
    var i := 0;
    while i < |left|
      invariant 0 <= i <= |left| && left[..i] == right[..i]
    {
      if left[i] != right[i] {
        return false;
      }
      i := i + 1;
    }
    assert left[..|left|] == left && right[..|right|] == right;
    equal := true;
  }

  datatype Verdict = Accepted | WrongInventory | InvalidStep | WrongCommand | Disagreement | WrongStatus

  /** What is wrong with one step, in the order the checker looks. */
  function StepVerdict(s: StepRecord, command: seq<string>): Verdict {
    if s.name == "" || (s.status != "PASS" && s.status != "FAIL") || s.exitCode < 0 then InvalidStep
    else if s.command != command then WrongCommand
    else if (s.status == "PASS" && s.exitCode != 0) || (s.status == "FAIL" && s.exitCode == 0) then Disagreement
    else Accepted
  }

  /** The steps agree with the commands, and the record's status with its steps. */
  ghost predicate Consistent(record: Record, commands: seq<seq<string>>) {
    && |record.steps| == |commands|
    && (forall i | 0 <= i < |commands| ::
          var s := record.steps[i];
          s.name != "" && s.command == commands[i]
              && ((s.status == "PASS" && s.exitCode == 0) || (s.status == "FAIL" && s.exitCode > 0)))
    && (record.status == "FAIL" <==> exists i | 0 <= i < |commands| :: record.steps[i].status == "FAIL")
  }

  /** Accepts exactly the consistent records, and otherwise reports the first step that is wrong. */
  method ValidateGateSteps(record: Record, commands: seq<seq<string>>) returns (v: Verdict)
    ensures v == Accepted <==> Consistent(record, commands)
    ensures v == WrongInventory <==> |record.steps| != |commands|
    ensures v in {InvalidStep, WrongCommand, Disagreement} ==>
              exists i | 0 <= i < |commands| :: v == StepVerdict(record.steps[i], commands[i])
                && forall j | 0 <= j < i :: StepVerdict(record.steps[j], commands[j]) == Accepted
    ensures v == WrongStatus ==> forall i | 0 <= i < |commands| :: StepVerdict(record.steps[i], commands[i]) == Accepted
  {
    if |record.steps| != |commands| {
      return WrongInventory;
    }
    var failed := false;
    var i := 0;
    while i < |commands|
      invariant 0 <= i <= |commands|
      invariant forall j | 0 <= j < i :: StepVerdict(record.steps[j], commands[j]) == Accepted
      invariant failed <==> exists j | 0 <= j < i :: record.steps[j].status == "FAIL"
    {
      var step := record.steps[i];
      if step.name == "" || (step.status != "PASS" && step.status != "FAIL") || step.exitCode < 0 {
        assert StepVerdict(step, commands[i]) == InvalidStep;
        return InvalidStep;
      }
      var same := StringSlicesEqual(step.command, commands[i]);
      if !same {
        assert StepVerdict(step, commands[i]) == WrongCommand;
        return WrongCommand;
      }
      if (step.status == "PASS" && step.exitCode != 0) || (step.status == "FAIL" && step.exitCode == 0) {
        assert StepVerdict(step, commands[i]) == Disagreement;
        return Disagreement;
      }
      failed := failed || step.status == "FAIL";
      i := i + 1;
    }
    if failed != (record.status == "FAIL") {
      return WrongStatus;
    }
    v := Accepted;
  }

  // ----- producer against checker -----

  /** The exit codes the checker can be shown: a step that fails must fail with a positive one. */
  ghost predicate Presentable(steps: seq<Step>, execute: Executor) {
    forall i | 0 <= i < |steps| ::
      steps[i].name != "" && (execute(i, steps[i]).Succeeds? || ExitCode(execute(i, steps[i])) > 0)
  }

  /** The guard passes exactly the records of full proof runs. */
  lemma GuardPassesExactlyWhen(record: Record, o: Options, steps: seq<Step>, execute: Executor)
    requires Describes(record, o, steps, execute)
    ensures TerminalProof(record) <==> o.proof != "" && !o.quick && !o.android && !o.androidOnly
  {
  }

  /** Any other schema or status, or a record not marked terminal, is refused. */
  lemma AlteredIsRefused(record: Record, text: string)
    ensures !TerminalProof(record.(terminal := false))
    ensures text != "kurdistan-gate-execution-v1" ==> !TerminalProof(record.(schema := text))
    ensures text != "PASS" && text != "FAIL" ==> !TerminalProof(record.(status := text))
  {
  }

  /** The gate turns down a proof run that is quick or Android, so what it does run passes the guard. */
  lemma ProofRunPassesGuard(record: Record, o: Options, steps: seq<Step>, execute: Executor,
                            knownProof: string -> bool, clean: string -> string)
    requires OptionsStand(o, knownProof, clean) && Describes(record, o, steps, execute)
    ensures TerminalProof(record) <==> o.proof != ""
  {
  }

  /** The checker accepts a run's record against the same commands exactly when every step is named
      and every failure has a positive exit code. */
  lemma RecordAcceptedExactlyWhen(record: Record, o: Options, steps: seq<Step>, execute: Executor)
    requires Describes(record, o, steps, execute)
    ensures Consistent(record, Commands(steps)) <==>
              forall i | 0 <= i < |steps| ::
                steps[i].name != ""
                && (execute(i, steps[i]).Succeeds? || (execute(i, steps[i]).Exits? && execute(i, steps[i]).code > 0))
  {
    assert Presentable(steps, execute) <==>
             forall i | 0 <= i < |steps| ::
               steps[i].name != ""
               && (execute(i, steps[i]).Succeeds? || (execute(i, steps[i]).Exits? && execute(i, steps[i]).code > 0));
    if Consistent(record, Commands(steps)) {
      forall i | 0 <= i < |steps|
        ensures steps[i].name != "" && (execute(i, steps[i]).Succeeds? || ExitCode(execute(i, steps[i])) > 0)
      {
        assert Tells(record.steps[i], steps[i], execute(i, steps[i]));
        assert record.steps[i].name != "";
      }
    }
    if Presentable(steps, execute) {
      forall i | 0 <= i < |steps|
        ensures var s := record.steps[i];
                && s.name != "" && s.command == Commands(steps)[i]
                && ((s.status == "PASS" && s.exitCode == 0) || (s.status == "FAIL" && s.exitCode > 0))
      {
        assert Tells(record.steps[i], steps[i], execute(i, steps[i]));
        assert steps[i].name != "";
      }
      StatusAgrees(record, o, steps, execute);
    }
  }

  lemma StatusAgrees(record: Record, o: Options, steps: seq<Step>, execute: Executor)
    requires Describes(record, o, steps, execute)
    ensures record.status == "FAIL" <==> exists i | 0 <= i < |steps| :: record.steps[i].status == "FAIL"
  {
    if record.status == "FAIL" {
      var i :| 0 <= i < |steps| && !execute(i, steps[i]).Succeeds?;
      assert Tells(record.steps[i], steps[i], execute(i, steps[i]));
      assert record.steps[i].status == "FAIL";
    }
  }

  /** A step that could not be run at all is such a failure: its record passes the guard and is refused. */
  lemma BrokenStepIsRefused() returns (o: Options, steps: seq<Step>, execute: Executor)
    ensures o.proof != "" && |steps| == 1 && steps[0].name != ""
    ensures forall record | Describes(record, o, steps, execute) ::
              TerminalProof(record) && !Consistent(record, Commands(steps))
  {
    o := Options(false, false, false, "proof", "", "");
    steps := [Step("build", "go", [])];
    execute := (i, s) => Breaks;
    forall record | Describes(record, o, steps, execute)
      ensures TerminalProof(record) && !Consistent(record, Commands(steps))
    {
      RecordAcceptedExactlyWhen(record, o, steps, execute);
      assert execute(0, steps[0]).Breaks?;
    }
  }

  /** When an exit error carries -1 or a positive code, the condition is that no failure reads -1. */
  lemma OnlyMinusOneIsRefused(steps: seq<Step>, execute: Executor)
    requires forall i | 0 <= i < |steps| :: steps[i].name != ""
    requires forall i | 0 <= i < |steps| ::
               var run := execute(i, steps[i]); run.Exits? ==> run.code == -1 || run.code > 0
    ensures Presentable(steps, execute) <==> forall i | 0 <= i < |steps| :: ExitCode(execute(i, steps[i])) != -1
  {
    if forall i | 0 <= i < |steps| :: ExitCode(execute(i, steps[i])) != -1 {
      forall i | 0 <= i < |steps|
        ensures steps[i].name != "" && (execute(i, steps[i]).Succeeds? || ExitCode(execute(i, steps[i])) > 0)
      {
        assert ExitCode(execute(i, steps[i])) != -1;
      }
    }
  }

  /** An accepted PASS record of any run: the policy's commands are the ones that ran, in order,
      and each of them succeeded. */
  lemma AcceptedPassMeansAllRan(record: Record, o: Options, steps: seq<Step>, execute: Executor,
                                commands: seq<seq<string>>)
    requires Describes(record, o, steps, execute) && Consistent(record, commands) && record.status == "PASS"
    ensures |commands| == |steps|
    ensures forall i | 0 <= i < |steps| ::
              commands[i] == [steps[i].program] + steps[i].args && execute(i, steps[i]).Succeeds?
  {
    forall i | 0 <= i < |steps|
      ensures commands[i] == [steps[i].program] + steps[i].args && execute(i, steps[i]).Succeeds?
    {
      assert Tells(record.steps[i], steps[i], execute(i, steps[i]));
      assert record.steps[i].command == commands[i];
      assert record.steps[i].status != "FAIL";
    }
  }

  /** An accepted FAIL record names a step that ended with a positive exit code. */
  lemma AcceptedFailMeansOneFailed(record: Record, o: Options, steps: seq<Step>, execute: Executor,
                                   commands: seq<seq<string>>)
    requires Describes(record, o, steps, execute) && Consistent(record, commands) && record.status == "FAIL"
    ensures exists i | 0 <= i < |steps| :: execute(i, steps[i]).Exits? && execute(i, steps[i]).code > 0
  {
    var i :| 0 <= i < |commands| && record.steps[i].status == "FAIL";
    assert Tells(record.steps[i], steps[i], execute(i, steps[i]));
    assert execute(i, steps[i]).Exits? && execute(i, steps[i]).code > 0;
  }
}

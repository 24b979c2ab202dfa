/** Running fixture test cases against an AWK program: one result per
    case, a case passing exactly when the run succeeds and its trimmed
    output equals the trimmed expected text. */
module AwkTestRunner {
  import opened Wrappers
  import opened JavaText
  import opened Domain

  /** `AwkProgram`: where a program lives, its text and its hash (an
      override read for one case carries none). */
  datatype AwkProgram = AwkProgram(path: Str, content: Str, hash: Option<Str>)

  /** `AwkRunResult`. */
  datatype RunResult = RunResult(exitCode: int, stdout: Str, stderr: Str)

  /** `AwkRunResult.isSuccess`. */
  predicate Succeeded(result: RunResult) {
    result.exitCode == 0
  }

  /** What a test run depends on outside the runner: the files, the awk
      process (program, input path, variables) and the unified-diff
      writer. */
  datatype Runner = Runner(
    files: FileSystem,
    run: (AwkProgram, Str, map<Str, Str>) -> Result<RunResult, Failure>,
    diff: (Str, Str) -> Str)

  /** `normalize`. */
  function Normalize(content: Str): Str {
    Trim(content)
  }

  /** The verdict of one run against the expected text. */
  predicate Passes(result: RunResult, expected: Str) {
    Succeeded(result) && Normalize(expected) == Normalize(result.stdout)
  }

  /** The program a case runs: its override read from disk, or the default. */
  function ProgramFor(runner: Runner, testCase: AwkTestCase, defaultProgram: AwkProgram): Result<AwkProgram, Failure> {
    match testCase.programOverride
    case None => Ok(defaultProgram)
    case Some(path) =>
      match ReadString(runner.files, path)
      case Ok(content) => Ok(AwkProgram(path, content, None))
      case Err(e) => Err(e)
  }

  /** The result recorded for one finished run. */
  function Verdict(runner: Runner, testCase: AwkTestCase, result: RunResult, expected: Str): TestRun {
    var passed := Passes(result, expected);
    TestRun(testCase.name, passed, if passed then None else Some(runner.diff(expected, result.stdout)))
  }

  /** One iteration of `runTests`: pick the program, run it, read the
      expected text, judge. The first step that throws ends the case. */
  function RunCase(runner: Runner, testCase: AwkTestCase, defaultProgram: AwkProgram): Result<TestRun, Failure> {
    match ProgramFor(runner, testCase, defaultProgram)
    case Err(e) => Err(e)
    case Ok(program) =>
      match runner.run(program, testCase.inputPath, testCase.variables)
      case Err(e) => Err(e)
      case Ok(result) =>
        match ReadString(runner.files, testCase.expectedPath)
        case Err(e) => Err(e)
        case Ok(expected) => Ok(Verdict(runner, testCase, result, expected))
  }

  /** `runTests` as a value: the results of the cases in order, or the
      failure of the first case that throws. */
  function RunAll(runner: Runner, cases: seq<AwkTestCase>, defaultProgram: AwkProgram): Result<seq<TestRun>, Failure>
    decreases |cases|
  {
    if cases == [] then Ok([])
    else
      match RunAll(runner, cases[..|cases| - 1], defaultProgram)
      case Err(e) => Err(e)
      case Ok(results) =>
        match RunCase(runner, cases[|cases| - 1], defaultProgram)
        case Err(e) => Err(e)
        case Ok(run) => Ok(results + [run])
  }

  /** `runTests`. */
  method RunTests(runner: Runner, cases: seq<AwkTestCase>, defaultProgram: AwkProgram)
    returns (r: Result<seq<TestRun>, Failure>)
    ensures r == RunAll(runner, cases, defaultProgram)
  {
    var results: seq<TestRun> := [];
    var i := 0;
    while i < |cases|
      invariant 0 <= i <= |cases|
      invariant RunAll(runner, cases[..i], defaultProgram) == Ok(results)
    {
      assert cases[..i + 1][..i] == cases[..i];
      var run := RunCase(runner, cases[i], defaultProgram);
      if run.Err? {
        PrefixFailure(runner, cases, defaultProgram, i + 1);
        return Err(run.error);
      }
      results := results + [run.value];
      i := i + 1;
    }
    assert cases[..i] == cases;
    r := Ok(results);
  }

  // ------------------------------------------------------ properties

  /** A failing prefix makes the whole run fail the same way. */
  lemma {:induction false} PrefixFailure(runner: Runner, cases: seq<AwkTestCase>, defaultProgram: AwkProgram, n: nat)
    requires n <= |cases|
    requires RunAll(runner, cases[..n], defaultProgram).Err?
    ensures RunAll(runner, cases, defaultProgram) == RunAll(runner, cases[..n], defaultProgram)
    decreases |cases| - n
  {
    if n < |cases| {
      var m := n + 1;
      assert cases[..m][..n] == cases[..n];
      PrefixFailure(runner, cases, defaultProgram, m);
    } else {
      assert cases[..n] == cases;
    }
  }

  /** A run that finishes has one result per case, in order, each the
      case's own outcome; and it finishes exactly when no case throws. */
  lemma {:induction false} RunAllPerCase(runner: Runner, cases: seq<AwkTestCase>, defaultProgram: AwkProgram)
    ensures var r := RunAll(runner, cases, defaultProgram);
      (r.Ok? <==> forall k | 0 <= k < |cases| :: RunCase(runner, cases[k], defaultProgram).Ok?)
      && (r.Ok? ==>
            |r.value| == |cases|
            && forall k | 0 <= k < |cases| :: Ok(r.value[k]) == RunCase(runner, cases[k], defaultProgram))
    decreases |cases|
  {
    if cases != [] {
      var front := cases[..|cases| - 1];
      RunAllPerCase(runner, front, defaultProgram);
      assert forall k | 0 <= k < |front| :: front[k] == cases[k];
    }
  }

  /** A run's result is named after its case, carries a diff exactly when
      it fails, and passes exactly when the process exits 0 and the
      trimmed texts agree. */
  lemma VerdictRule(runner: Runner, testCase: AwkTestCase, defaultProgram: AwkProgram)
    requires RunCase(runner, testCase, defaultProgram).Ok?
    ensures var program := ProgramFor(runner, testCase, defaultProgram).value;
      var result := runner.run(program, testCase.inputPath, testCase.variables).value;
      var expected := FileAt(runner.files, testCase.expectedPath).text;
      var run := RunCase(runner, testCase, defaultProgram).value;
      run.name == testCase.name
      && (run.passed <==> result.exitCode == 0 && Trim(expected) == Trim(result.stdout))
      && (run.diff.None? <==> run.passed)
  {
  }

  /** An override replaces the default program: the case then runs the
      same whatever the default is. */
  lemma OverrideIgnoresDefault(runner: Runner, testCase: AwkTestCase, one: AwkProgram, other: AwkProgram)
    requires testCase.programOverride.Some?
    ensures RunCase(runner, testCase, one) == RunCase(runner, testCase, other)
    ensures FileAt(runner.files, testCase.programOverride.value).Readable? ==>
      ProgramFor(runner, testCase, one)
      == Ok(AwkProgram(testCase.programOverride.value, FileAt(runner.files, testCase.programOverride.value).text, None))
  {
  }

  /** Whitespace after the program's output never changes the verdict. */
  lemma TrailingOutputPadding(result: RunResult, expected: Str, pad: Str)
    requires forall k | 0 <= k < |pad| :: TrimmedAway(pad[k])
    ensures Passes(RunResult(result.exitCode, result.stdout + pad, result.stderr), expected) == Passes(result, expected)
  {
    TrimAppendPad(result.stdout, pad);
  }

  /** A failed exit fails the case whatever it printed. */
  lemma NonZeroExitFails(runner: Runner, testCase: AwkTestCase, result: RunResult, expected: Str)
    requires result.exitCode != 0
    ensures !Verdict(runner, testCase, result, expected).passed
    ensures Verdict(runner, testCase, result, expected).diff == Some(runner.diff(expected, result.stdout))
  {
  }
}

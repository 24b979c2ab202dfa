/** `vawk run`: runs an AWK program with `-v name=value` variables, then
    records a "RUN" session log. Each `--var` must read `name=value` with
    a non-empty name and value; one bad assignment stops the command
    before the program is read or run. */
module RunCommand {
  import opened Wrappers
  import opened JavaText
  import opened Domain
  import opened AwkTestRunner

  const EQ: Str := "="
  const RUN_COMMAND: Str := "RUN"
  const SPEC_YAML: Str := "spec.yaml"

  // ------------------------------------------------ `--var` assignments

  /** One assignment split at its first `=`; `None` when there is no `=`,
      or the first `=` opens or closes the text. The value keeps any
      further `=`. */
  function Split(a: Str): (r: Option<(Str, Str)>)
    ensures r.None? <==>
      !Contains(a, EQ) || a[0] == '=' || (a[|a| - 1] == '=' && '=' !in a[..|a| - 1])
    ensures r.Some? ==>
      a == r.value.0 + EQ + r.value.1 && r.value.0 != [] && r.value.1 != [] && '=' !in r.value.0
  {
    var idx := IndexOf(a, EQ);
    if idx == -1 then None
    else
      assert a[idx..idx + 1] == EQ;
      if idx == 0 || idx == |a| - 1 then
        NameHasNoEq(a, idx);
        None
      else
        assert a[idx] == '=';
        assert a[..|a| - 1][idx] == '=';
        NameHasNoEq(a, idx);
        assert a == a[..idx] + EQ + a[idx + 1..];
        Some((a[..idx], a[idx + 1..]))
  }

  /** Nothing before the first `=` is an `=`. */
  lemma NameHasNoEq(a: Str, idx: int)
    requires 0 <= idx && IndexOf(a, EQ) == idx
    ensures '=' !in a[..idx]
  {
    forall k | 0 <= k < idx
      ensures a[..idx][k] != '='
    {
      assert !IsAt(a, EQ, k);
    }
  }

  /** The variables a list of assignments sets, later ones overwriting
      earlier ones with the same name; `None` once one is malformed. */
  function Vars(list: seq<Str>): Option<map<Str, Str>>
    decreases |list|
  {
    if list == [] then Some(map[])
    else
      match Vars(list[..|list| - 1])
      case None => None
      case Some(vars) =>
        match Split(list[|list| - 1])
        case None => None
        case Some((name, value)) => Some(vars[name := value])
  }

  /** A list is rejected exactly when the list before its last
      assignment is, or that assignment is malformed. */
  lemma VarsLast(list: seq<Str>)
    requires list != []
    ensures Vars(list).None? <==> Vars(list[..|list| - 1]).None? || Split(list[|list| - 1]).None?
  {
  }

  /** Once a prefix is rejected, so is the whole list. */
  lemma {:induction false} PrefixRejected(list: seq<Str>, i: nat)
    requires i <= |list| && Vars(list[..i]).None?
    ensures Vars(list).None?
    decreases |list| - i
  {
    if i < |list| {
      VarsLast(list[..i + 1]);
      assert list[..i + 1][..i] == list[..i];
      PrefixRejected(list, i + 1);
    } else {
      assert list[..i] == list;
    }
  }

  /** `parseVarAssignments` as a value: no `--var` at all is no variable. */
  function VarAssignments(list: Option<seq<Str>>): Option<map<Str, Str>> {
    if list.None? then Some(map[]) else Vars(list.value)
  }

  lemma VarsStep(list: seq<Str>, i: nat)
    requires i < |list|
    ensures list[..i + 1][..i] == list[..i] && list[..i + 1][i] == list[i]
  {
  }

  /** `parseVarAssignments`: fills a map one assignment at a time and
      gives up at the first malformed one. */
  method ParseVarAssignments(list: Option<seq<Str>>) returns (vars: Option<map<Str, Str>>)
    ensures vars == VarAssignments(list)
  {
    var found: map<Str, Str> := map[];
    if list.None? {
      return Some(found);
    }
    var assignments := list.value;
    var i := 0;
    while i < |assignments|
      invariant 0 <= i <= |assignments|
      invariant Vars(assignments[..i]) == Some(found)
    {
      VarsStep(assignments, i);
      var split := Split(assignments[i]);
      if split.None? {
        VarsLast(assignments[..i + 1]);
        PrefixRejected(assignments, i + 1);
        return None;
      }
      var (name, value) := split.value;
      found := found[name := value];
      i := i + 1;
    }
    assert assignments[..i] == assignments;
    vars := Some(found);
  }

  // ------------------------------------------------------------- `call`

  /** What `call` depends on: the files (for `spec.yaml`), reading a
      program with its hash, the awk process, and SHA-256. */
  datatype Tools = Tools(
    files: FileSystem,
    readProgram: Str -> Result<AwkProgram, Failure>,
    run: (AwkProgram, Option<Str>, map<Str, Str>) -> Result<RunResult, Failure>,
    sha: Str -> Str)

  /** The fields a "RUN" log sets: the command, the SINGLE mode, the
      program's hash and, when `spec.yaml` exists, its hash. */
  datatype RunLog = RunLog(command: Str, mode: GenerationMode, programHash: Option<Str>, specHash: Option<Str>)

  /** The hash of `spec.yaml` for the log: none when the file is absent;
      a file that exists but cannot be read throws. */
  function SpecHash(tools: Tools): Result<Option<Str>, Failure> {
    if !Exists(tools.files, SPEC_YAML) then Ok(None)
    else
      match ReadString(tools.files, SPEC_YAML)
      case Err(e) => Err(e)
      case Ok(text) => Ok(Some(tools.sha(text)))
  }

  /** `call` as a value: its exit code, or the failure it throws, and the
      logs after it. */
  function Ran(tools: Tools, logs: seq<RunLog>, awkPath: Str, list: Option<seq<Str>>, input: Option<Str>)
    : (Result<int, Failure>, seq<RunLog>)
  {
    match VarAssignments(list)
    case None => (Ok(1), logs)
    case Some(vars) =>
      match tools.readProgram(awkPath)
      case Err(e) => (Err(e), logs)
      case Ok(program) =>
        match tools.run(program, input, vars)
        case Err(e) => (Err(e), logs)
        case Ok(result) =>
          match SpecHash(tools)
          case Err(e) => (Err(e), logs)
          case Ok(specHash) =>
            (Ok(result.exitCode), logs + [RunLog(RUN_COMMAND, SINGLE, program.hash, specHash)])
  }

  /** `RunCommand` with the session logs it appends to. */
  class Command {
    const tools: Tools
    var logs: seq<RunLog>

    constructor(tools: Tools, logs: seq<RunLog>)
      ensures this.tools == tools && this.logs == logs
    {
      this.tools := tools;
      this.logs := logs;
    }

    /** `call`. */
    method Call(awkPath: Str, list: Option<seq<Str>>, input: Option<Str>) returns (r: Result<int, Failure>)
      modifies this
      ensures (r, logs) == Ran(tools, old(logs), awkPath, list, input)
    {
      var vars := ParseVarAssignments(list);
      if vars.None? {
        return Ok(1);
      }
      var program := tools.readProgram(awkPath);
      if program.Err? {
        return Err(program.error);
      }
      var result := tools.run(program.value, input, vars.value);
      if result.Err? {
        return Err(result.error);
      }
      var specHash: Option<Str> := None;
      if Exists(tools.files, SPEC_YAML) {
        var text := ReadString(tools.files, SPEC_YAML);
        if text.Err? {
          return Err(text.error);
        }
        specHash := Some(tools.sha(text.value));
      }
      logs := logs + [RunLog(RUN_COMMAND, SINGLE, program.value.hash, specHash)];
      r := Ok(result.value.exitCode);
    }
  }

  // ------------------------------------------------------ properties

  /** A well-formed assignment splits back into its own name and value,
      whatever `=` the value holds. */
  lemma SplitJoin(name: Str, value: Str)
    requires name != [] && value != [] && '=' !in name
    ensures Split(name + EQ + value) == Some((name, value))
  {
    var a := name + EQ + value;
    assert IsAt(a, EQ, |name|);
    forall k | 0 <= k < |name|
      ensures !IsAt(a, EQ, k)
    {
      assert a[k] == name[k];
    }
    FirstEq(a, |name|);
    assert a[..|name|] == name && a[|name| + 1..] == value;
  }

  lemma FirstEq(a: Str, k: nat)
    requires IsAt(a, EQ, k) && forall i | 0 <= i < k :: !IsAt(a, EQ, i)
    ensures IndexOf(a, EQ) == k
  {
    assert Contains(a, EQ);
  }

  /** The assignments are rejected exactly when one of them is malformed. */
  lemma {:induction false} InvalidIffOneMalformed(list: seq<Str>)
    ensures Vars(list).None? <==> exists i | 0 <= i < |list| :: Split(list[i]).None?
    decreases |list|
  {
    if list != [] {
      var front := list[..|list| - 1];
      VarsLast(list);
      InvalidIffOneMalformed(front);
      MalformedInFront(list);
      assert forall i | 0 <= i < |front| :: front[i] == list[i];
    }
  }

  /** A malformed assignment of a list is one of all but its last, or
      its last. */
  lemma MalformedInFront(list: seq<Str>)
    requires list != []
    ensures (exists i | 0 <= i < |list| :: Split(list[i]).None?)
        <==> (exists i | 0 <= i < |list| - 1 :: Split(list[i]).None?) || Split(list[|list| - 1]).None?
  {
  }

  /** Every assignment of a valid list sets its name, and the value a
      name ends up with is that of its last assignment. */
  lemma {:induction false} LastAssignmentWins(list: seq<Str>, i: nat)
    requires Vars(list).Some? && i < |list|
    ensures Split(list[i]).Some?
    ensures var (name, value) := Split(list[i]).value;
      name in Vars(list).value
      && ((forall j | i < j < |list| :: Split(list[j]).Some? && Split(list[j]).value.0 != name) ==>
            Vars(list).value[name] == value)
    decreases |list|
  {
    var front := list[..|list| - 1];
    if i < |front| {
      LastAssignmentWins(front, i);
      assert front[i] == list[i];
      var (name, value) := Split(list[i]).value;
      if forall j | i < j < |list| :: Split(list[j]).Some? && Split(list[j]).value.0 != name {
        assert Split(list[|list| - 1]).value.0 != name;
        forall j | i < j < |front|
          ensures Split(front[j]).Some? && Split(front[j]).value.0 != name
        {
          assert front[j] == list[j];
        }
      }
    }
  }

  /** Every variable set comes from one of the assignments. */
  lemma {:induction false} OnlyAssignedNames(list: seq<Str>, name: Str)
    requires Vars(list).Some? && name in Vars(list).value
    ensures exists i | 0 <= i < |list| :: Split(list[i]).Some? && Split(list[i]).value.0 == name
    decreases |list|
  {
    var front := list[..|list| - 1];
    var last := Split(list[|list| - 1]).value;
    if last.0 != name {
      OnlyAssignedNames(front, name);
      var i :| 0 <= i < |front| && Split(front[i]).Some? && Split(front[i]).value.0 == name;
      assert list[i] == front[i];
    }
  }

  /** A malformed assignment ends the command with exit code 1 before the
      program is read or run and without a log, whatever the reader and
      the runner would have done. */
  lemma MalformedStopsEarly(tools: Tools, other: Tools, logs: seq<RunLog>, awkPath: Str, list: seq<Str>,
                            input: Option<Str>, i: nat)
    requires i < |list| && Split(list[i]).None?
    ensures Ran(tools, logs, awkPath, Some(list), input) == (Ok(1), logs)
    ensures Ran(other, logs, awkPath, Some(list), input) == (Ok(1), logs)
  {
    InvalidIffOneMalformed(list);
  }

  /** Otherwise the exit code is the run's own, and one log is added,
      recording "RUN", SINGLE and the program's hash. */
  lemma ExitCodeIsTheRun(tools: Tools, logs: seq<RunLog>, awkPath: Str, list: Option<seq<Str>>, input: Option<Str>)
    requires VarAssignments(list).Some?
    requires tools.readProgram(awkPath).Ok?
    requires tools.run(tools.readProgram(awkPath).value, input, VarAssignments(list).value).Ok?
    requires !Exists(tools.files, SPEC_YAML) || FileAt(tools.files, SPEC_YAML).Readable?
    ensures var (r, after) := Ran(tools, logs, awkPath, list, input);
      var program := tools.readProgram(awkPath).value;
      r == Ok(tools.run(program, input, VarAssignments(list).value).value.exitCode)
      && |after| == |logs| + 1 && after[..|logs|] == logs
      && after[|logs|].command == RUN_COMMAND && after[|logs|].mode == SINGLE
      && after[|logs|].programHash == program.hash
      && (after[|logs|].specHash.Some? <==> Exists(tools.files, SPEC_YAML))
  {
  }
}

/** The files a generation or refinement reads and writes in the working
    directory: the AGENTS guidance, `spec.yaml`, `main.awk` and the session
    logs under `.vawk/logs`. */
module Repositories {
  import opened Wrappers
  import opened JavaText
  import opened Domain
  import opened AwkTestRunner

  const AGENTS_PRIMARY: Str := "AGENTS.md"
  const AGENTS_FALLBACK: Str := "prompts/AGENTS.md"
  const SPEC_FILE: Str := "spec.yaml"
  const PROGRAM_FILE: Str := "main.awk"

  // -------------------------------------------------- AGENTS guidance

  /** `AgentsFileRepository.read`: AGENTS.md when it exists, otherwise
      prompts/AGENTS.md when that exists, otherwise no guidance; an
      existing file that cannot be read fails. */
  function AgentsGuidance(fs: FileSystem): (r: Result<Option<Str>, Failure>)
    ensures !Exists(fs, AGENTS_PRIMARY) && !Exists(fs, AGENTS_FALLBACK) <==> r == Ok(None)
    ensures r.Ok? && r.value.Some? ==>
      FileAt(fs, AGENTS_PRIMARY) == Readable(r.value.value)
      || (!Exists(fs, AGENTS_PRIMARY) && FileAt(fs, AGENTS_FALLBACK) == Readable(r.value.value))
  {
    var path := if Exists(fs, AGENTS_PRIMARY) then AGENTS_PRIMARY
                else if Exists(fs, AGENTS_FALLBACK) then AGENTS_FALLBACK
                else [];
    if path == [] then Ok(None)
    else match ReadString(fs, path)
      case Ok(text) => Ok(Some(text))
      case Err(e) => Err(e)
  }

  /** Once AGENTS.md exists the fallback file is never looked at. */
  lemma PrimaryShadowsFallback(fs: FileSystem, fallback: FileState)
    requires Exists(fs, AGENTS_PRIMARY)
    ensures AgentsGuidance(fs[AGENTS_FALLBACK := fallback]) == AgentsGuidance(fs)
  {
    assert AGENTS_PRIMARY != AGENTS_FALLBACK by {
      assert |AGENTS_PRIMARY| != |AGENTS_FALLBACK|;
    }
    assert FileAt(fs[AGENTS_FALLBACK := fallback], AGENTS_PRIMARY) == FileAt(fs, AGENTS_PRIMARY);
  }

  // -------------------------------------------------- the working files

  /** What the working directory holds: the spec `spec.yaml` reads back
      as, the text of `main.awk`, and the logs written so far, oldest
      first. `None` is a file that is absent or cannot be read. */
  datatype Snapshot = Snapshot(spec: Option<VawkSpec>, program: Option<Str>, logs: seq<SessionLog>)

  /** `SpecRepository.read`. */
  function SpecRead(files: Snapshot): (r: Result<VawkSpec, Failure>)
    ensures r.Ok? <==> files.spec.Some?
    ensures r.Ok? ==> r.value == files.spec.value
  {
    match files.spec
    case Some(spec) => Ok(spec)
    case None => Err(Some(SPEC_FILE))
  }

  /** `ProgramRepository.read`: the text of `main.awk` with its hash. */
  function ProgramRead(files: Snapshot, sha: Str -> Str): (r: Result<AwkProgram, Failure>)
    ensures r.Ok? <==> files.program.Some?
    ensures r.Ok? ==> r.value.content == files.program.value && r.value.hash == Some(sha(r.value.content))
  {
    match files.program
    case Some(content) => Ok(AwkProgram(PROGRAM_FILE, content, Some(sha(content))))
    case None => Err(Some(PROGRAM_FILE))
  }

  /** A program read right after it is written is the text written,
      hashed, whatever was there before. */
  lemma ProgramWriteRead(files: Snapshot, content: Str, sha: Str -> Str)
    ensures ProgramRead(files.(program := Some(content)), sha) == Ok(AwkProgram(PROGRAM_FILE, content, Some(sha(content))))
  {
  }

  /** The working directory as an object whose repositories update it in
      place. */
  class Workspace {
    var spec: Option<VawkSpec>
    var program: Option<Str>
    var logs: seq<SessionLog>

    constructor(files: Snapshot)
      ensures Files() == files
    {
      spec := files.spec;
      program := files.program;
      logs := files.logs;
    }

    function Files(): Snapshot
      reads this
    {
      Snapshot(spec, program, logs)
    }

    /** `SpecRepository.write`. */
    method WriteSpec(value: VawkSpec)
      modifies this
      ensures Files() == old(Files()).(spec := Some(value))
    {
      spec := Some(value);
    }

    /** `SpecRepository.read`. */
    method ReadSpec() returns (r: Result<VawkSpec, Failure>)
      ensures r == SpecRead(Files())
    {
      if spec.None? {
        return Err(Some(SPEC_FILE));
      }
      r := Ok(spec.value);
    }

    /** `ProgramRepository.write`. */
    method WriteProgram(content: Str)
      modifies this
      ensures Files() == old(Files()).(program := Some(content))
    {
      program := Some(content);
    }

    /** `ProgramRepository.read`. */
    method ReadProgram(sha: Str -> Str) returns (r: Result<AwkProgram, Failure>)
      ensures r == ProgramRead(Files(), sha)
    {
      if program.None? {
        return Err(Some(PROGRAM_FILE));
      }
      var content := program.value;
      r := Ok(AwkProgram(PROGRAM_FILE, content, Some(sha(content))));
    }

    /** `SessionLogRepository.write`: one more log file. */
    method WriteLog(log: SessionLog)
      modifies this
      ensures Files() == old(Files()).(logs := old(logs) + [log])
    {
      logs := logs + [log];
    }
  }
}

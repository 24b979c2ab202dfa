/** The generation pipeline: ground the description in RAG snippets, build and
    save a spec, ask for a plan and then for code, validate the reply,
    save the program and record a session log, optionally running the
    fixture tests. Every write happens only after the steps before it
    succeeded. */
module GeneratorService {
  import opened Wrappers
  import opened JavaText
  import opened Domain
  import opened SectionParser
  import opened SectionValidator
  import RagRepository
  import opened VawkAgents
  import opened AwkTestRunner
  import opened TestRepository
  import opened SpecBuilder
  import opened Repositories

  /** The retrieval repository as the services reach it: `findRelevant`
      and `readContent`. */
  datatype Library = Library(
    find: (Option<Str>, int) -> Result<seq<RagRepository.RagEntry>, Str>,
    read: RagRepository.RagEntry -> Result<Str, Str>)

  /** The repository over the documentation tree `fs`. */
  function Docs(fs: FileSystem): Library {
    Library((query, limit) => RagRepository.Relevant(fs, query, limit), entry => RagRepository.ReadContent(fs, entry))
  }

  /** `VawkSpecBuilder.build`: description, guidance, RAG context. */
  type SpecSource = (Option<Str>, Option<Str>, Option<Str>) -> VawkSpec

  /** One `VawkAgents` request: the request text, the guidance, the RAG context. */
  type Asker = (Task, Option<Str>, Option<Str>) -> Result<Option<AiResponse>, Failure>

  /** `TestRepository.load`: the fixtures of a tests directory. */
  type FixtureSource = Str -> Result<seq<AwkTestCase>, Failure>

  /** The collaborators: the files AGENTS guidance is read from, the
      retrieval repository (absent when none is configured), the spec
      builder, the agents, the fixture loader, the awk runner, the spec
      serialiser, the SHA-256 hash and the configured model name. */
  datatype Services = Services(
    root: FileSystem,
    docs: Option<Library>,
    build: SpecSource,
    ask: Asker,
    load: FixtureSource,
    runner: Runner,
    yaml: VawkSpec -> Result<Str, Failure>,
    sha: Str -> Str,
    modelName: Str)

  /** The services as the application wires them from its components. */
  function Wired(root: FileSystem, docs: Option<FileSystem>, builder: Builder, agents: Agents, tests: Disk,
                 runner: Runner, yaml: VawkSpec -> Result<Str, Failure>, sha: Str -> Str, modelName: Str): Services {
    Services(root, if docs.Some? then Some(Docs(docs.value)) else None,
             (description, agentsMd, ragContext) => Build(builder, description, agentsMd, ragContext),
             (task, agentsMd, ragContext) => Generate(agents, task, agentsMd, ragContext),
             testsDir => Loaded(tests, testsDir), runner, yaml, sha, modelName)
  }

  /** `GenerateResult`. */
  datatype GenerateResult = GenerateResult(spec: VawkSpec, program: AwkProgram, log: SessionLog)

  const GENERATE_COMMAND: Str := "GEN"
  const RAG_LIMIT: int := 3
  const RAG_CUT: nat := 2000
  const UNAVAILABLE: Str := "<unavailable>"
  const BLANK_LINE: Str := "\n\n"
  const DEFAULT_TESTS_DIR: Str := "tests"
  const AUTO_RUN: Str := "auto"

  // ------------------------------------------------------ log fields

  /** The model a log records: the override when it is non-null and
      non-blank, otherwise the configured model. */
  function RecordedModel(modelOverride: Option<Str>, modelName: Str): Str
  {
    if modelOverride.Some? && !IsBlank(modelOverride.value) then modelOverride.value else modelName
  }

  /** The log both services write for a validated reply. */
  function Receipt(command: Str, mode: Option<GenerationMode>, model: Str, reply: AiResponse, code: Str,
                   program: AwkProgram, specHash: Str, runs: seq<TestRun>): SessionLog {
    SessionLog(command, mode, model, reply.plan, code, reply.tests, reply.notes, program.hash, specHash,
               TestsList(reply.tests), runs)
  }

  // ------------------------------------------------------ RAG context

  /** The first 2000 characters of an entry's content. */
  function Cut(content: Str): (r: Str)
    ensures |r| == if |content| <= RAG_CUT then |content| else RAG_CUT
    ensures r == content[..|r|]
  {
    if |content| > RAG_CUT then content[..RAG_CUT] else content
  }

  /** The line that opens one entry of a RAG context. */
  function RagHeading(entry: RagRepository.RagEntry): Str {
    "## RAG: " + entry.id + " (" + entry.path + ")\n"
  }

  /** `formatRagEntry`: the heading, then the cut content, or a
      placeholder when the content cannot be read. */
  function FormatRagEntry(docs: Library, entry: RagRepository.RagEntry): (r: Str)
    ensures docs.read(entry).Ok? ==> r == RagHeading(entry) + Cut(docs.read(entry).value)
    ensures docs.read(entry).Err? ==> r == RagHeading(entry) + UNAVAILABLE
  {
    match docs.read(entry)
    case Ok(content) => RagHeading(entry) + Cut(content)
    case Err(_) => RagHeading(entry) + UNAVAILABLE
  }

  function FormatAll(docs: Library, entries: seq<RagRepository.RagEntry>): (r: seq<Str>)
    ensures |r| == |entries|
  {
    seq(|entries|, k requires 0 <= k < |entries| => FormatRagEntry(docs, entries[k]))
  }

  /** `buildRagContext`: the three most relevant entries, formatted and
      joined by a blank line; empty without a repository or when the
      search throws. */
  function RagContext(docs: Option<Library>, query: Option<Str>): Str {
    match docs
    case None => []
    case Some(library) =>
      match library.find(query, RAG_LIMIT)
      case Err(_) => []
      case Ok(entries) => Join(FormatAll(library, entries), BLANK_LINE)
  }

  // ------------------------------------------------------ auto tests

  /** The tests directory: "tests" when none or a blank one is given. */
  function TestsDirOf(testsDir: Option<Str>): Str
  {
    if testsDir.None? || IsBlank(testsDir.value) then DEFAULT_TESTS_DIR else testsDir.value
  }

  /** The single failed run recorded when loading or running throws. */
  function AutoFailure(e: Failure): TestRun {
    TestRun(AUTO_RUN, false, e)
  }

  /** `runAutoTests` as a value. */
  function AutoTests(s: Services, program: AwkProgram, testsDir: Str): seq<TestRun> {
    match s.load(testsDir)
    case Err(e) => [AutoFailure(e)]
    case Ok(cases) =>
      if cases == [] then []
      else match RunAll(s.runner, cases, program)
        case Err(e) => [AutoFailure(e)]
        case Ok(runs) => runs
  }

  /** `runAutoTests`: load the fixtures, run them, and turn anything
      thrown into the one failed "auto" run. */
  method RunAutoTests(s: Services, program: AwkProgram, testsDir: Str) returns (runs: seq<TestRun>)
    ensures runs == AutoTests(s, program, testsDir)
  {
    var cases := s.load(testsDir);
    if cases.Err? {
      return [AutoFailure(cases.error)];
    }
    if cases.value == [] {
      return [];
    }
    var results := RunTests(s.runner, cases.value, program);
    if results.Err? {
      return [AutoFailure(results.error)];
    }
    runs := results.value;
  }

  // ------------------------------------------------------ the pipeline

  /** `ensurePlan`: a reply with a non-blank PLAN. */
  predicate HasPlan(response: Option<AiResponse>) {
    response.Some? && response.value.plan.Some? && !IsBlank(response.value.plan.value)
  }

  /** The plan request for a spec. */
  function PlanReply(s: Services, spec: VawkSpec, agentsMd: Option<Str>, rag: Str, mode: Option<GenerationMode>)
    : Result<Option<AiResponse>, Failure> {
    s.ask(PlanFromSpec(spec, mode), Some(agentsMd.GetOr([])), Some(rag))
  }

  /** The code request for a plan. */
  function CodeReply(s: Services, plan: Option<Str>, spec: VawkSpec, agentsMd: Option<Str>, rag: Str,
                     mode: Option<GenerationMode>): Result<Option<AiResponse>, Failure> {
    s.ask(AwkFromPlan(plan, spec, mode), Some(agentsMd.GetOr([])), Some(rag))
  }

  /** The plan request, the plan check, the code request and the
      structure check, in that order; the failure of the first that
      throws. The missing-plan message is the text of `PLAN_MISSING`. */
  function Drafted(s: Services, spec: VawkSpec, agentsMd: Option<Str>, rag: Str, mode: Option<GenerationMode>)
    : (r: Result<AiResponse, Failure>)
    ensures r.Ok? ==> Validate(Some(r.value)).None?
  {
    match PlanReply(s, spec, agentsMd, rag, mode)
    case Err(e) => Err(e)
    case Ok(planReply) =>
      if !HasPlan(planReply) then Err(Some(PLAN_MISSING))
      else
        match CodeReply(s, planReply.value.plan, spec, agentsMd, rag, mode)
        case Err(e) => Err(e)
        case Ok(codeReply) =>
          match Validate(codeReply)
          case Some(message) => Err(Some(message))
          case None => Ok(codeReply.value)
  }

  /** The spec a generation builds: from the description, the guidance
      and the RAG context of the description. */
  function SpecFor(s: Services, description: Option<Str>, agentsMd: Option<Str>): VawkSpec {
    s.build(description, agentsMd, Some(RagContext(s.docs, description)))
  }

  /** The program text a validated reply yields: its CODE without fences. */
  function CodeOf(reply: AiResponse): Str
    requires reply.code.Some?
  {
    StripCodeFences(reply.code).value
  }

  /** What `generate` does once the reply is validated and the spec
      saved: save the program, read it back with its hash, run the tests
      when asked, and append the log. */
  function Finished(s: Services, files: Snapshot, spec: VawkSpec, specYaml: Str, reply: AiResponse,
                    mode: Option<GenerationMode>, modelOverride: Option<Str>, autoTest: bool, testsDir: Option<Str>)
    : (Result<GenerateResult, Failure>, Snapshot)
    requires reply.code.Some?
  {
    var code := CodeOf(reply);
    var programWritten := files.(program := Some(code));
    var program := ProgramRead(programWritten, s.sha).value;
    var runs := if autoTest then AutoTests(s, program, TestsDirOf(testsDir)) else [];
    var log := Receipt(GENERATE_COMMAND, mode, RecordedModel(modelOverride, s.modelName), reply, code,
                       program, s.sha(specYaml), runs);
    (Ok(GenerateResult(spec, program, log)), programWritten.(logs := files.logs + [log]))
  }

  /** `generate` as a value: its result and the working files after it. */
  function Generated(s: Services, files: Snapshot, description: Option<Str>, mode: Option<GenerationMode>,
                     modelOverride: Option<Str>, autoTest: bool, testsDir: Option<Str>)
    : (Result<GenerateResult, Failure>, Snapshot)
  {
    match AgentsGuidance(s.root)
    case Err(e) => (Err(e), files)
    case Ok(agentsMd) =>
      var rag := RagContext(s.docs, description);
      var spec := SpecFor(s, description, agentsMd);
      match s.yaml(spec)
      case Err(e) => (Err(e), files)
      case Ok(specYaml) =>
        var specWritten := files.(spec := Some(spec));
        match Drafted(s, spec, agentsMd, rag, mode)
        case Err(e) => (Err(e), specWritten)
        case Ok(reply) => Finished(s, specWritten, spec, specYaml, reply, mode, modelOverride, autoTest, testsDir)
  }

  /** `VawkGeneratorService` over a working directory. */
  class Generator {
    const services: Services
    const workspace: Workspace

    constructor(services: Services, workspace: Workspace)
      ensures this.services == services && this.workspace == workspace
    {
      this.services := services;
      this.workspace := workspace;
    }

    /** `generate`. */
    method Generate(description: Option<Str>, mode: Option<GenerationMode>, modelOverride: Option<Str>,
                    autoTest: bool, testsDir: Option<Str>)
      returns (r: Result<GenerateResult, Failure>)
      modifies workspace
      ensures (r, workspace.Files())
           == Generated(services, old(workspace.Files()), description, mode, modelOverride, autoTest, testsDir)
    {
      var agentsMd := AgentsGuidance(services.root);
      if agentsMd.Err? {
        return Err(agentsMd.error);
      }
      var rag := RagContext(services.docs, description);
      var spec := SpecFor(services, description, agentsMd.value);
      var specYaml := services.yaml(spec);
      if specYaml.Err? {
        return Err(specYaml.error);
      }
      workspace.WriteSpec(spec);
      var reply := Drafted(services, spec, agentsMd.value, rag, mode);
      if reply.Err? {
        return Err(reply.error);
      }
      r := Finish(spec, specYaml.value, reply.value, mode, modelOverride, autoTest, testsDir);
    }

    /** The steps of `generate` after validation. */
    method Finish(spec: VawkSpec, specYaml: Str, reply: AiResponse, mode: Option<GenerationMode>,
                  modelOverride: Option<Str>, autoTest: bool, testsDir: Option<Str>)
      returns (r: Result<GenerateResult, Failure>)
      requires reply.code.Some?
      modifies workspace
      ensures (r, workspace.Files())
           == Finished(services, old(workspace.Files()), spec, specYaml, reply, mode, modelOverride, autoTest, testsDir)
    {
      var code := CodeOf(reply);
      workspace.WriteProgram(code);
      var program := workspace.ReadProgram(services.sha);
      var specHash := services.sha(specYaml);
      var requested := ParseTestsList(reply.tests);
      var runs: seq<TestRun> := [];
      if autoTest {
        runs := RunAutoTests(services, program.value, TestsDirOf(testsDir));
      }
      var log := SessionLog(GENERATE_COMMAND, mode, RecordedModel(modelOverride, services.modelName),
                            reply.plan, code, reply.tests, reply.notes, program.value.hash, specHash, requested, runs);
      workspace.WriteLog(log);
      r := Ok(GenerateResult(spec, program.value, log));
    }
  }

  // ------------------------------------------------------ properties

  /** A generation that fails writes neither the program nor a log. The
      spec is written as soon as it serialises, so a failure of the plan,
      code or structure step leaves the new spec behind. */
  lemma FailureWritesNoProgram(s: Services, files: Snapshot, description: Option<Str>, mode: Option<GenerationMode>,
                               modelOverride: Option<Str>, autoTest: bool, testsDir: Option<Str>)
    ensures var (r, after) := Generated(s, files, description, mode, modelOverride, autoTest, testsDir);
      r.Err? ==>
        after.program == files.program && after.logs == files.logs
        && (after.spec == files.spec
            || after.spec == Some(SpecFor(s, description, AgentsGuidance(s.root).value)))
  {
  }

  /** A plan reply that is null or has a null or blank PLAN ends the run
      with "AI response missing PLAN section"; only the spec is written. */
  lemma PlanMissingStops(s: Services, files: Snapshot, description: Option<Str>, mode: Option<GenerationMode>,
                         modelOverride: Option<Str>, autoTest: bool, testsDir: Option<Str>, agentsMd: Option<Str>)
    requires AgentsGuidance(s.root) == Ok(agentsMd)
    requires s.yaml(SpecFor(s, description, agentsMd)).Ok?
    requires var plan := PlanReply(s, SpecFor(s, description, agentsMd), agentsMd, RagContext(s.docs, description), mode);
      plan.Ok? && !HasPlan(plan.value)
    ensures Generated(s, files, description, mode, modelOverride, autoTest, testsDir)
         == (Err(Some(PLAN_MISSING)), files.(spec := Some(SpecFor(s, description, agentsMd))))
  {
  }

  /** A code reply that fails the structure check ends the run with the
      validator's message before the program or a log is written. */
  lemma InvalidCodeStops(s: Services, files: Snapshot, description: Option<Str>, mode: Option<GenerationMode>,
                         modelOverride: Option<Str>, autoTest: bool, testsDir: Option<Str>, agentsMd: Option<Str>,
                         plan: AiResponse, message: Str)
    requires AgentsGuidance(s.root) == Ok(agentsMd)
    requires s.yaml(SpecFor(s, description, agentsMd)).Ok?
    requires PlanReply(s, SpecFor(s, description, agentsMd), agentsMd, RagContext(s.docs, description), mode) == Ok(Some(plan))
    requires HasPlan(Some(plan))
    requires var code := CodeReply(s, plan.plan, SpecFor(s, description, agentsMd), agentsMd, RagContext(s.docs, description), mode);
      code.Ok? && Validate(code.value) == Some(message)
    ensures Generated(s, files, description, mode, modelOverride, autoTest, testsDir)
         == (Err(Some(message)), files.(spec := Some(SpecFor(s, description, agentsMd))))
  {
  }

  /** What a successful generation leaves behind: the built spec, the
      fence-stripped CODE of a reply that passed the structure check as
      `main.awk`, and one more log recording "GEN", the mode, the chosen
      model, the reply's sections, both hashes, the TESTS descriptions and
      the test runs, which stay empty without auto-test. */
  lemma GeneratedRecord(s: Services, files: Snapshot, description: Option<Str>, mode: Option<GenerationMode>,
                        modelOverride: Option<Str>, autoTest: bool, testsDir: Option<Str>, agentsMd: Option<Str>)
    requires AgentsGuidance(s.root) == Ok(agentsMd)
    requires Generated(s, files, description, mode, modelOverride, autoTest, testsDir).0.Ok?
    ensures var (r, after) := Generated(s, files, description, mode, modelOverride, autoTest, testsDir);
      var spec := SpecFor(s, description, agentsMd);
      var drafted := Drafted(s, spec, agentsMd, RagContext(s.docs, description), mode);
      var log := r.value.log;
      drafted.Ok? && Validate(Some(drafted.value)).None?
      && r.value.spec == spec
      && after == Snapshot(Some(spec), Some(log.code), files.logs + [log])
      && log.code == StripCodeFences(drafted.value.code).value
      && r.value.program == AwkProgram(PROGRAM_FILE, log.code, Some(s.sha(log.code)))
      && log.programHash == Some(s.sha(log.code))
      && log.specHash == s.sha(s.yaml(spec).value)
      && log.command == GENERATE_COMMAND && log.mode == mode
      && log.model == RecordedModel(modelOverride, s.modelName)
      && log.planText == drafted.value.plan && log.testsText == drafted.value.tests && log.notes == drafted.value.notes
      && log.testsRequested == TestsList(drafted.value.tests)
      && (!autoTest ==> log.testsRun == [])
      && (autoTest ==> log.testsRun == AutoTests(s, r.value.program, TestsDirOf(testsDir)))
  {
  }

  /** The model override changes nothing but the model the log records:
      every step before `Finished` ignores it, and after validation the
      result and the files differ only in that one field. */
  lemma FinishedNamesModel(s: Services, files: Snapshot, spec: VawkSpec, specYaml: Str, reply: AiResponse,
                           mode: Option<GenerationMode>, one: Option<Str>, other: Option<Str>, autoTest: bool,
                           testsDir: Option<Str>)
    requires reply.code.Some?
    ensures var (r1, after1) := Finished(s, files, spec, specYaml, reply, mode, one, autoTest, testsDir);
      var (r2, after2) := Finished(s, files, spec, specYaml, reply, mode, other, autoTest, testsDir);
      r2.value == r1.value.(log := r1.value.log.(model := RecordedModel(other, s.modelName)))
      && after2 == after1.(logs := files.logs + [r2.value.log])
  {
  }

  /** Auto-test yields exactly one failed "auto" run carrying the failure
      when loading or running the fixtures throws, no runs when there are
      no fixtures, and otherwise one run per fixture, in order, named
      after it. */
  lemma AutoTestsOutcome(s: Services, program: AwkProgram, testsDir: Str)
    ensures s.load(testsDir).Err? ==>
      AutoTests(s, program, testsDir) == [TestRun(AUTO_RUN, false, s.load(testsDir).error)]
    ensures s.load(testsDir) == Ok([]) ==> AutoTests(s, program, testsDir) == []
    ensures s.load(testsDir).Ok? && s.load(testsDir).value != [] ==>
      var cases := s.load(testsDir).value;
      var runs := AutoTests(s, program, testsDir);
      (RunAll(s.runner, cases, program).Err? ==>
         runs == [TestRun(AUTO_RUN, false, RunAll(s.runner, cases, program).error)])
      && (RunAll(s.runner, cases, program).Ok? ==>
            |runs| == |cases| && forall k | 0 <= k < |cases| :: runs[k].name == cases[k].name)
  {
    if s.load(testsDir).Ok? {
      var cases := s.load(testsDir).value;
      RunAllPerCase(s.runner, cases, program);
      if RunAll(s.runner, cases, program).Ok? {
        forall k | 0 <= k < |cases|
          ensures AutoTests(s, program, testsDir)[k].name == cases[k].name
        {
          VerdictRule(s.runner, cases[k], program);
        }
      }
    }
  }

  /** Each entry of a RAG context opens with its heading and carries at
      most 2000 characters of content. */
  lemma RagEntryBounded(docs: Library, entry: RagRepository.RagEntry)
    ensures StartsWith(FormatRagEntry(docs, entry), RagHeading(entry))
    ensures |FormatRagEntry(docs, entry)| <= |RagHeading(entry)| + RAG_CUT
  {
    var r := FormatRagEntry(docs, entry);
    assert r[..|RagHeading(entry)|] == RagHeading(entry);
  }

  /** Without a repository, or when the search throws or finds nothing,
      the context is empty; one entry is the context on its own; more are
      joined by a blank line in the order found. */
  lemma RagContextJoined(docs: Option<Library>, query: Option<Str>)
    ensures docs.None? ==> RagContext(docs, query) == []
    ensures docs.Some? && docs.value.find(query, RAG_LIMIT).Err? ==> RagContext(docs, query) == []
    ensures docs.Some? && docs.value.find(query, RAG_LIMIT).Ok? ==>
      var entries := docs.value.find(query, RAG_LIMIT).value;
      (entries == [] ==> RagContext(docs, query) == [])
      && (|entries| == 1 ==> RagContext(docs, query) == FormatRagEntry(docs.value, entries[0]))
      && (|entries| >= 2 ==>
            RagContext(docs, query)
            == Join(FormatAll(docs.value, entries[..|entries| - 1]), BLANK_LINE)
               + BLANK_LINE + FormatRagEntry(docs.value, entries[|entries| - 1]))
  {
    if docs.Some? && docs.value.find(query, RAG_LIMIT).Ok? {
      var library := docs.value;
      var entries := library.find(query, RAG_LIMIT).value;
      if |entries| >= 2 {
        var front := entries[..|entries| - 1];
        var formatted := FormatAll(library, entries);
        assert formatted == FormatAll(library, front) + [FormatRagEntry(library, entries[|entries| - 1])];
        JoinAppend(FormatAll(library, front), [FormatRagEntry(library, entries[|entries| - 1])], BLANK_LINE);
      }
    }
  }

  /** Over the documentation tree, no query finds nothing and a search
      never returns more than three entries. */
  lemma DocsSearchBounds(fs: FileSystem, query: Option<Str>)
    ensures RagContext(Some(Docs(fs)), None) == []
    ensures Docs(fs).find(query, RAG_LIMIT).Ok? ==> |Docs(fs).find(query, RAG_LIMIT).value| <= 3
  {
  }
}

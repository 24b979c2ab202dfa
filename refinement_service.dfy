/** The refinement pipeline: reuse the saved spec (or build one from the
    change request), send the current program and the change request to
    the model, validate the reply, then save the program, the spec and a
    "REFINE" session log. */
module RefinementService {
  import opened Wrappers
  import opened JavaText
  import opened Domain
  import opened SectionParser
  import opened SectionValidator
  import RagRepository
  import opened VawkAgents
  import opened AwkTestRunner
  import opened Repositories
  import opened GeneratorService

  const REFINE_COMMAND: Str := "REFINE"
  const REFINE_DEFAULT: Str := "Refine AWK script"
  const REFINE_PREFIX: Str := "Refine: "

  /** `descriptionFromChange`: the description the builder gets when no
      spec can be read. */
  function DescriptionFromChange(changeRequest: Option<Str>): Str
  {
    if changeRequest.None? || IsBlank(changeRequest.value) then REFINE_DEFAULT
    else REFINE_PREFIX + changeRequest.value
  }

  // ------------------------------------------------------ RAG context

  /** The block one entry adds to the context; nothing when its content
      cannot be read. */
  function EntryBlock(docs: Library, entry: RagRepository.RagEntry): Str {
    match docs.read(entry)
    case Ok(content) => RagHeading(entry) + Cut(content) + BLANK_LINE
    case Err(_) => []
  }

  /** The pieces `block` makes of the entries, in order. */
  function Joined(block: RagRepository.RagEntry -> Str, entries: seq<RagRepository.RagEntry>): Str
    decreases |entries|
  {
    if entries == [] then []
    else Joined(block, entries[..|entries| - 1]) + block(entries[|entries| - 1])
  }

  function BlockOf(docs: Library): RagRepository.RagEntry -> Str {
    entry => EntryBlock(docs, entry)
  }

  /** The blocks of the entries, in order. */
  function Blocks(docs: Library, entries: seq<RagRepository.RagEntry>): Str {
    Joined(BlockOf(docs), entries)
  }

  lemma BlocksStep(docs: Library, entries: seq<RagRepository.RagEntry>, i: nat)
    requires i < |entries|
    ensures Blocks(docs, entries[..i + 1]) == Blocks(docs, entries[..i]) + EntryBlock(docs, entries[i])
  {
    assert entries[..i + 1][..i] == entries[..i];
  }

  /** `buildRagContext` as a value: the blocks of the three most relevant
      entries, trimmed; empty without a repository or when the search
      throws. */
  function RefineRagContext(docs: Option<Library>, query: Option<Str>): Str {
    match docs
    case None => []
    case Some(library) =>
      match library.find(query, RAG_LIMIT)
      case Err(_) => []
      case Ok(entries) => Trim(Blocks(library, entries))
  }

  /** `buildRagContext`: appends one block per readable entry to a
      builder, then trims. */
  method BuildRagContext(docs: Option<Library>, query: Option<Str>) returns (r: Str)
    ensures r == RefineRagContext(docs, query)
  {
    if docs.None? {
      return [];
    }
    var library := docs.value;
    var relevant := library.find(query, RAG_LIMIT);
    if relevant.Err? {
      return [];
    }
    var entries := relevant.value;
    var context: Str := [];
    var i := 0;
    while i < |entries|
      invariant 0 <= i <= |entries|
      invariant context == Blocks(library, entries[..i])
    {
      BlocksStep(library, entries, i);
      var content := library.read(entries[i]);
      if content.Ok? {
        var text := content.value;
        if |text| > RAG_CUT {
          text := text[..RAG_CUT];
        }
        Regroup3(context, RagHeading(entries[i]), text, BLANK_LINE);
        context := context + RagHeading(entries[i]) + text + BLANK_LINE;
      }
      i := i + 1;
    }
    assert entries[..i] == entries;
    r := Trim(context);
  }

  // ------------------------------------------------------ the pipeline

  /** `readSpecOrDefault`: the saved spec, or a built one when it cannot
      be read. */
  function SpecOrDefault(s: Services, files: Snapshot, description: Str, agentsMd: Option<Str>, rag: Str): VawkSpec {
    match SpecRead(files)
    case Ok(spec) => spec
    case Err(_) => s.build(Some(description), agentsMd, Some(rag))
  }

  /** The spec a refinement works on. */
  function RefineSpec(s: Services, files: Snapshot, changeRequest: Option<Str>, agentsMd: Option<Str>): VawkSpec {
    SpecOrDefault(s, files, DescriptionFromChange(changeRequest), agentsMd, RefineRagContext(s.docs, changeRequest))
  }

  /** The refine request for the current program. */
  function RefineReply(s: Services, changeRequest: Option<Str>, spec: VawkSpec, program: Str, agentsMd: Option<Str>,
                       rag: Str, mode: Option<GenerationMode>): Result<Option<AiResponse>, Failure> {
    s.ask(Refine(changeRequest, spec, program, mode), Some(agentsMd.GetOr([])), Some(rag))
  }

  /** The refine request followed by the structure check. */
  function Reviewed(s: Services, changeRequest: Option<Str>, spec: VawkSpec, program: Str, agentsMd: Option<Str>,
                    rag: Str, mode: Option<GenerationMode>): (r: Result<AiResponse, Failure>)
    ensures r.Ok? ==> Validate(Some(r.value)).None?
  {
    match RefineReply(s, changeRequest, spec, program, agentsMd, rag, mode)
    case Err(e) => Err(e)
    case Ok(reply) =>
      match Validate(reply)
      case Some(message) => Err(Some(message))
      case None => Ok(reply.value)
  }

  /** What `refine` does once the reply is validated: save the program
      and read it back, save the spec, hash it, run the tests of "tests"
      when asked, and append the log. */
  function Revised(s: Services, files: Snapshot, spec: VawkSpec, reply: AiResponse, mode: Option<GenerationMode>,
                   modelOverride: Option<Str>, autoTest: bool): (Result<GenerateResult, Failure>, Snapshot)
    requires reply.code.Some?
  {
    var code := CodeOf(reply);
    var programWritten := files.(program := Some(code));
    var program := ProgramRead(programWritten, s.sha).value;
    match s.yaml(spec)
    case Err(e) => (Err(e), programWritten)
    case Ok(specYaml) =>
      var runs := if autoTest then AutoTests(s, program, DEFAULT_TESTS_DIR) else [];
      var log := Receipt(REFINE_COMMAND, mode, RecordedModel(modelOverride, s.modelName), reply, code,
                         program, s.sha(specYaml), runs);
      (Ok(GenerateResult(spec, program, log)), programWritten.(spec := Some(spec), logs := files.logs + [log]))
  }

  /** `refine` as a value: its result and the working files after it. */
  function Refined(s: Services, files: Snapshot, changeRequest: Option<Str>, mode: Option<GenerationMode>,
                   modelOverride: Option<Str>, autoTest: bool): (Result<GenerateResult, Failure>, Snapshot)
  {
    match AgentsGuidance(s.root)
    case Err(e) => (Err(e), files)
    case Ok(agentsMd) =>
      var rag := RefineRagContext(s.docs, changeRequest);
      var spec := RefineSpec(s, files, changeRequest, agentsMd);
      match ProgramRead(files, s.sha)
      case Err(e) => (Err(e), files)
      case Ok(current) =>
        match Reviewed(s, changeRequest, spec, current.content, agentsMd, rag, mode)
        case Err(e) => (Err(e), files)
        case Ok(reply) => Revised(s, files, spec, reply, mode, modelOverride, autoTest)
  }

  /** `VawkRefinementService` over a working directory. */
  class Refiner {
    const services: Services
    const workspace: Workspace

    constructor(services: Services, workspace: Workspace)
      ensures this.services == services && this.workspace == workspace
    {
      this.services := services;
      this.workspace := workspace;
    }

    /** `refine`. */
    method Refine(changeRequest: Option<Str>, mode: Option<GenerationMode>, modelOverride: Option<Str>, autoTest: bool)
      returns (r: Result<GenerateResult, Failure>)
      modifies workspace
      ensures (r, workspace.Files())
           == Refined(services, old(workspace.Files()), changeRequest, mode, modelOverride, autoTest)
    {
      var agentsMd := AgentsGuidance(services.root);
      if agentsMd.Err? {
        return Err(agentsMd.error);
      }
      var rag := BuildRagContext(services.docs, changeRequest);
      var spec := ReadSpecOrDefault(DescriptionFromChange(changeRequest), agentsMd.value, rag);
      var current := workspace.ReadProgram(services.sha);
      if current.Err? {
        return Err(current.error);
      }
      var reply := Reviewed(services, changeRequest, spec, current.value.content, agentsMd.value, rag, mode);
      if reply.Err? {
        return Err(reply.error);
      }
      r := Revise(spec, reply.value, mode, modelOverride, autoTest);
    }

    /** `readSpecOrDefault`. */
    method ReadSpecOrDefault(description: Str, agentsMd: Option<Str>, rag: Str) returns (spec: VawkSpec)
      ensures spec == SpecOrDefault(services, workspace.Files(), description, agentsMd, rag)
    {
      var saved := workspace.ReadSpec();
      if saved.Ok? {
        return saved.value;
      }
      spec := services.build(Some(description), agentsMd, Some(rag));
    }

    /** The steps of `refine` after validation. */
    method Revise(spec: VawkSpec, reply: AiResponse, mode: Option<GenerationMode>, modelOverride: Option<Str>,
                  autoTest: bool) returns (r: Result<GenerateResult, Failure>)
      requires reply.code.Some?
      modifies workspace
      ensures (r, workspace.Files())
           == Revised(services, old(workspace.Files()), spec, reply, mode, modelOverride, autoTest)
    {
      var code := CodeOf(reply);
      workspace.WriteProgram(code);
      var program := workspace.ReadProgram(services.sha);
      var specYaml := services.yaml(spec);
      if specYaml.Err? {
        return Err(specYaml.error);
      }
      workspace.WriteSpec(spec);
      var specHash := services.sha(specYaml.value);
      var requested := ParseTestsList(reply.tests);
      var runs: seq<TestRun> := [];
      if autoTest {
        runs := RunAutoTests(services, program.value, DEFAULT_TESTS_DIR);
      }
      var log := SessionLog(REFINE_COMMAND, mode, RecordedModel(modelOverride, services.modelName),
                            reply.plan, code, reply.tests, reply.notes, program.value.hash, specHash, requested, runs);
      workspace.WriteLog(log);
      r := Ok(GenerateResult(spec, program.value, log));
    }
  }

  // ------------------------------------------------------ properties

  /** The fallback description is never blank and always opens with
      "Refine"; a non-blank request is kept whole at its end. */
  lemma DescriptionNamesRequest(changeRequest: Option<Str>)
    ensures !IsBlank(DescriptionFromChange(changeRequest))
    ensures StartsWith(DescriptionFromChange(changeRequest), "Refine")
    ensures changeRequest.Some? && !IsBlank(changeRequest.value) ==>
      var r := DescriptionFromChange(changeRequest);
      r[|r| - |changeRequest.value|..] == changeRequest.value
  {
    var r := DescriptionFromChange(changeRequest);
    assert r[0] == 'R' && !IsWhitespace(r[0]);
    assert r[..6] == "Refine";
  }

  /** The blocks of two runs of entries are the blocks of each in turn. */
  lemma BlocksConcat(docs: Library, a: seq<RagRepository.RagEntry>, b: seq<RagRepository.RagEntry>)
    ensures Blocks(docs, a + b) == Blocks(docs, a) + Blocks(docs, b)
  {
    JoinedConcat(BlockOf(docs), a, b);
  }

  lemma {:induction false} JoinedConcat(block: RagRepository.RagEntry -> Str, a: seq<RagRepository.RagEntry>,
                                        b: seq<RagRepository.RagEntry>)
    ensures Joined(block, a + b) == Joined(block, a) + Joined(block, b)
    decreases |b|
  {
    if b == [] {
      assert a + b == a;
    } else {
      var front := b[..|b| - 1];
      assert (a + b)[..|a + b| - 1] == a + front;
      assert (a + b)[|a + b| - 1] == b[|b| - 1];
      JoinedConcat(block, a, front);
    }
  }

  /** An entry whose content cannot be read leaves no trace in the
      context: no heading, no placeholder. */
  lemma UnreadableOmitted(docs: Library, a: seq<RagRepository.RagEntry>, entry: RagRepository.RagEntry,
                          b: seq<RagRepository.RagEntry>)
    requires docs.read(entry).Err?
    ensures Blocks(docs, a + [entry] + b) == Blocks(docs, a + b)
  {
    var front := a + [entry];
    assert front[..|front| - 1] == a;
    assert Blocks(docs, front) == Blocks(docs, a) + [];
    BlocksConcat(docs, front, b);
    BlocksConcat(docs, a, b);
  }

  /** A readable entry contributes its heading, its first 2000
      characters and a blank line, after the blocks of the entries before
      it. */
  lemma ReadableIncluded(docs: Library, a: seq<RagRepository.RagEntry>, entry: RagRepository.RagEntry,
                         b: seq<RagRepository.RagEntry>)
    requires docs.read(entry).Ok?
    ensures Blocks(docs, a + [entry] + b)
         == Blocks(docs, a) + (RagHeading(entry) + Cut(docs.read(entry).value) + BLANK_LINE) + Blocks(docs, b)
    ensures Contains(Blocks(docs, a + [entry] + b), RagHeading(entry) + Cut(docs.read(entry).value) + BLANK_LINE)
  {
    BlocksConcat(docs, a + [entry], b);
    BlocksConcat(docs, a, [entry]);
    assert Blocks(docs, [entry]) == Blocks(docs, []) + EntryBlock(docs, entry);
    ContainsMiddle(Blocks(docs, a), RagHeading(entry) + Cut(docs.read(entry).value) + BLANK_LINE, Blocks(docs, b));
  }

  /** The context is already trimmed, and empty without a repository or
      when the search throws. */
  lemma RagContextTrimmed(docs: Option<Library>, query: Option<Str>)
    ensures Trim(RefineRagContext(docs, query)) == RefineRagContext(docs, query)
    ensures docs.None? || docs.value.find(query, RAG_LIMIT).Err? ==> RefineRagContext(docs, query) == []
  {
    if docs.Some? && docs.value.find(query, RAG_LIMIT).Ok? {
      TrimIdempotent(Blocks(docs.value, docs.value.find(query, RAG_LIMIT).value));
    } else {
      TrimNoop([]);
    }
  }

  /** A readable saved spec is used as it is and the builder is never
      consulted; otherwise the builder gets the description made from the
      change request. */
  lemma SavedSpecReused(s: Services, files: Snapshot, changeRequest: Option<Str>, agentsMd: Option<Str>,
                        other: SpecSource)
    ensures files.spec.Some? ==>
      RefineSpec(s, files, changeRequest, agentsMd) == files.spec.value
      && RefineSpec(s.(build := other), files, changeRequest, agentsMd) == files.spec.value
    ensures files.spec.None? ==>
      RefineSpec(s, files, changeRequest, agentsMd)
      == s.build(Some(DescriptionFromChange(changeRequest)), agentsMd, Some(RefineRagContext(s.docs, changeRequest)))
  {
  }

  /** Without a readable `main.awk` the refinement fails with its path
      before the model is asked, and nothing is written. */
  lemma MissingProgramStops(s: Services, files: Snapshot, changeRequest: Option<Str>, mode: Option<GenerationMode>,
                            modelOverride: Option<Str>, autoTest: bool)
    requires AgentsGuidance(s.root).Ok?
    requires files.program.None?
    ensures Refined(s, files, changeRequest, mode, modelOverride, autoTest) == (Err(Some(PROGRAM_FILE)), files)
  {
  }

  /** A reply that fails the structure check, or a request that throws,
      ends the refinement before the program, the spec or a log is
      written. */
  lemma InvalidReplyWritesNothing(s: Services, files: Snapshot, changeRequest: Option<Str>,
                                  mode: Option<GenerationMode>, modelOverride: Option<Str>, autoTest: bool,
                                  agentsMd: Option<Str>)
    requires AgentsGuidance(s.root) == Ok(agentsMd)
    requires files.program.Some?
    requires Reviewed(s, changeRequest, RefineSpec(s, files, changeRequest, agentsMd), files.program.value, agentsMd,
                      RefineRagContext(s.docs, changeRequest), mode).Err?
    ensures Refined(s, files, changeRequest, mode, modelOverride, autoTest).1 == files
    ensures Refined(s, files, changeRequest, mode, modelOverride, autoTest).0
         == Err(Reviewed(s, changeRequest, RefineSpec(s, files, changeRequest, agentsMd), files.program.value, agentsMd,
                         RefineRagContext(s.docs, changeRequest), mode).error)
  {
  }

  /** A failed refinement never touches the spec or the logs; only a
      spec that cannot be serialised leaves the new program behind. */
  lemma FailureKeepsSpecAndLogs(s: Services, files: Snapshot, changeRequest: Option<Str>, mode: Option<GenerationMode>,
                                modelOverride: Option<Str>, autoTest: bool)
    ensures var (r, after) := Refined(s, files, changeRequest, mode, modelOverride, autoTest);
      r.Err? ==> after.spec == files.spec && after.logs == files.logs
  {
    if AgentsGuidance(s.root).Ok? && files.program.Some? {
      var agentsMd := AgentsGuidance(s.root).value;
      var spec := RefineSpec(s, files, changeRequest, agentsMd);
      var reviewed := Reviewed(s, changeRequest, spec, files.program.value, agentsMd,
                               RefineRagContext(s.docs, changeRequest), mode);
      if reviewed.Ok? {
        RevisedFailure(s, files, spec, reviewed.value, mode, modelOverride, autoTest);
      }
    }
  }

  lemma RevisedFailure(s: Services, files: Snapshot, spec: VawkSpec, reply: AiResponse, mode: Option<GenerationMode>,
                       modelOverride: Option<Str>, autoTest: bool)
    requires reply.code.Some?
    ensures var (r, after) := Revised(s, files, spec, reply, mode, modelOverride, autoTest);
      r.Err? ==> after == files.(program := Some(CodeOf(reply)))
  {
  }

  /** What a successful refinement leaves behind: the spec it worked on,
      the fence-stripped CODE of a validated reply as `main.awk`, and one
      more log recording "REFINE", the chosen model, the reply's sections,
      both hashes, the TESTS descriptions and the runs of the "tests"
      fixtures, which stay empty without auto-test. */
  lemma RefinedRecord(s: Services, files: Snapshot, changeRequest: Option<Str>, mode: Option<GenerationMode>,
                      modelOverride: Option<Str>, autoTest: bool, agentsMd: Option<Str>)
    requires AgentsGuidance(s.root) == Ok(agentsMd)
    requires Refined(s, files, changeRequest, mode, modelOverride, autoTest).0.Ok?
    ensures var (r, after) := Refined(s, files, changeRequest, mode, modelOverride, autoTest);
      var spec := RefineSpec(s, files, changeRequest, agentsMd);
      var reviewed := Reviewed(s, changeRequest, spec, files.program.value, agentsMd,
                               RefineRagContext(s.docs, changeRequest), mode);
      var log := r.value.log;
      files.program.Some? && reviewed.Ok? && Validate(Some(reviewed.value)).None?
      && r.value.spec == spec
      && after == Snapshot(Some(spec), Some(log.code), files.logs + [log])
      && log.code == StripCodeFences(reviewed.value.code).value
      && r.value.program == AwkProgram(PROGRAM_FILE, log.code, Some(s.sha(log.code)))
      && log.programHash == Some(s.sha(log.code))
      && log.specHash == s.sha(s.yaml(spec).value)
      && log.command == REFINE_COMMAND && log.mode == mode
      && log.model == RecordedModel(modelOverride, s.modelName)
      && log.planText == reviewed.value.plan && log.testsText == reviewed.value.tests
      && log.notes == reviewed.value.notes
      && log.testsRequested == TestsList(reviewed.value.tests)
      && (!autoTest ==> log.testsRun == [])
      && (autoTest ==> log.testsRun == AutoTests(s, r.value.program, DEFAULT_TESTS_DIR))
  {
  }
}

/** The prompts of the six generation tasks (spec, plan, code, refine,
    explain, lint) and the system prompt sent with each of them. Every
    prompt opens with the plan-first instructions; a retrieval block and a
    guidance block are added only when there is text for them. */
module VawkAgents {
  import opened Wrappers
  import opened JavaText
  import opened Domain

  /** The templates of `SystemPrompts`. */
  datatype Templates = Templates(planFirst: Str, planFromSpec: Str, codeFromPlan: Str,
                                 refine: Str, explain: Str, lint: Str)

  const PLAN_FIRST: Str :=
    "You are VOX, an AWK-only coding assistant. Follow POSIX AWK only (no gawk extensions). Always respond with four sections in this exact order:\n\n"
    + "PLAN:\n<step-by-step plan>\n\nCODE:\n```awk\n# AWK code here\n```\n\nTESTS:\n- tests to run\n\nNOTES:\n- assumptions/limits\n\n"
    + "Never skip PLAN. Keep CODE inside ```awk fences. Do not use external commands or non-AWK code."
  const PLAN_FROM_SPEC: Str :=
    "Write a detailed PLAN for the AWK script described below. Do not output code here, only the PLAN section. Follow the PLAN/CODE/TESTS/NOTES section order even if CODE is empty.\n"
  const CODE_FROM_PLAN: Str :=
    "Generate POSIX AWK code from the given PLAN and SPEC. Respond with PLAN/CODE/TESTS/NOTES. CODE must be inside ```awk fences. Keep single-pass streaming; no gawk extensions or system() calls.\n"
  const REFINE: Str :=
    "Refine the AWK script per the change request. Respond with PLAN/CODE/TESTS/NOTES. Keep POSIX AWK, streaming, no external commands.\n"
  const EXPLAIN: Str :=
    "Explain the AWK script. Respond with PLAN/CODE/TESTS/NOTES (CODE may be the same script with light comments). Keep POSIX assumptions.\n"
  const LINT: Str :=
    "Lint and suggest small improvements to the AWK script. Respond with PLAN/CODE/TESTS/NOTES. Keep code POSIX AWK and single-pass.\n"

  const SYSTEM_PROMPTS: Templates := Templates(PLAN_FIRST, PLAN_FROM_SPEC, CODE_FROM_PLAN, REFINE, EXPLAIN, LINT)

  /** The instruction of `specFromVibe`. */
  const SPEC_REQUEST: Str :=
    "Derive a YAML spec for an AWK script from this description. Return PLAN/CODE/TESTS/NOTES. Put the YAML spec in CODE (inside ```yaml fences)."
  /** The closing line of `planFromSpec`. */
  const PLAN_REPLY: Str := "Respond with PLAN/CODE/TESTS/NOTES; leave CODE empty if you must.\n"
  /** What stands in for a spec the YAML writer cannot write. */
  const YAML_FAILED: Str := "# failed to serialize spec\n"

  /** `VawkAgents`: the templates, the YAML writer, which may fail
      (`None`), and the model client `AiClient.generate`, which answers a
      call with a parsed reply (`None` for null) or throws. */
  datatype Agents = Agents(
    templates: Templates,
    yaml: VawkSpec -> Option<Str>,
    client: Call -> Result<Option<AiResponse>, Failure>)

  /** The six tasks, with what each method takes besides the agents text
      and the retrieval context. */
  datatype Task =
    | SpecFromVibe(description: Option<Str>, mode: Option<GenerationMode>)
    | PlanFromSpec(spec: VawkSpec, mode: Option<GenerationMode>)
    | AwkFromPlan(plan: Option<Str>, spec: VawkSpec, mode: Option<GenerationMode>)
    | Refine(changeRequest: Option<Str>, spec: VawkSpec, program: Str, mode: Option<GenerationMode>)
    | Explain(program: Str)
    | Lint(program: Str)

  /** One call to the model client: the user prompt and the system prompt. */
  datatype Call = Call(prompt: Str, system: Str)

  /** `toYaml`. */
  function ToYaml(a: Agents, spec: VawkSpec): Str {
    match a.yaml(spec)
    case Some(text) => text
    case None => YAML_FAILED
  }

  /** A fenced program, as the refine, explain and lint prompts quote it. */
  function Quoted(program: Str): Str {
    "```\n" + program + "\n```\n"
  }

  /** What follows the plan-first instructions in each request's prompt. */
  function TaskText(a: Agents, task: Task): Str {
    match task
    case SpecFromVibe(description, _) =>
      SPEC_REQUEST + "\nDESCRIPTION:\n" + Shown(description) + "\n"
    case PlanFromSpec(spec, _) =>
      a.templates.planFromSpec + "\n" + "SPEC (YAML):\n" + ToYaml(a, spec) + "\n" + PLAN_REPLY
    case AwkFromPlan(plan, spec, _) =>
      a.templates.codeFromPlan + "\n" + "PLAN:\n" + Shown(plan) + "\n\n" + "SPEC (YAML):\n" + ToYaml(a, spec) + "\n"
    case Refine(changeRequest, spec, program, _) =>
      a.templates.refine + "\n" + "CURRENT SPEC (YAML):\n" + ToYaml(a, spec) + "\n"
      + "CURRENT CODE:\n" + Quoted(program) + "CHANGE REQUEST:\n" + Shown(changeRequest) + "\n"
    case Explain(program) =>
      a.templates.explain + "\n" + "CODE:\n" + Quoted(program)
    case Lint(program) =>
      a.templates.lint + "\n" + "CODE:\n" + Quoted(program)
  }

  /** The retrieval block: only for text that is neither null nor blank. */
  function RagBlock(ragContext: Option<Str>): Str {
    if NullOrBlank(ragContext) then [] else "\nRAG CONTEXT:\n" + ragContext.value + "\n"
  }

  /** The mode the system prompt names: explain and lint always plan in a
      single pass. */
  function ModeOf(task: Task): Option<GenerationMode> {
    match task
    case Explain(_) => Some(SINGLE)
    case Lint(_) => Some(SINGLE)
    case _ => task.mode
  }

  /** `mode.name()`, and "SINGLE" for a null mode. */
  function ModeName(mode: Option<GenerationMode>): Str {
    match mode
    case Some(COT) => "COT"
    case _ => "SINGLE"
  }

  /** `buildSystemPrompt`: the plan-first instructions, the mode, then the
      guidance block when the agents text is neither null nor blank. */
  function SystemPrompt(a: Agents, agentsMd: Option<Str>, mode: Option<GenerationMode>): Str {
    a.templates.planFirst + "\nMode: " + ModeName(mode) + ". "
    + (if NullOrBlank(agentsMd) then [] else "\nGUIDANCE:\n" + agentsMd.value)
  }

  /** The call each of the six methods makes. */
  function Request(a: Agents, task: Task, agentsMd: Option<Str>, ragContext: Option<Str>): Call {
    Call(a.templates.planFirst + "\n" + TaskText(a, task) + RagBlock(ragContext),
         SystemPrompt(a, agentsMd, ModeOf(task)))
  }

  /** What each of the six methods returns: the client's answer to its call. */
  function Generate(a: Agents, task: Task, agentsMd: Option<Str>, ragContext: Option<Str>): Result<Option<AiResponse>, Failure> {
    a.client(Request(a, task, agentsMd, ragContext))
  }

  // ------------------------------------------------------ properties

  /** Every prompt opens with the plan-first instructions, and so does
      every system prompt, followed by the mode line. */
  lemma RequestLeads(a: Agents, task: Task, agentsMd: Option<Str>, ragContext: Option<Str>)
    ensures var r := Request(a, task, agentsMd, ragContext);
      StartsWith(r.prompt, a.templates.planFirst + "\n")
      && StartsWith(r.system, a.templates.planFirst + "\nMode: " + ModeName(ModeOf(task)) + ". ")
  {
    var lead := a.templates.planFirst + "\n";
    Regroup(lead, TaskText(a, task), RagBlock(ragContext));
    assert (lead + (TaskText(a, task) + RagBlock(ragContext)))[..|lead|] == lead;
    var head := a.templates.planFirst + "\nMode: " + ModeName(ModeOf(task)) + ". ";
    var guidance := if NullOrBlank(agentsMd) then [] else "\nGUIDANCE:\n" + agentsMd.value;
    assert (head + guidance)[..|head|] == head;
  }

  /** The retrieval block is added at the end of the prompt exactly when
      the retrieval text is neither null nor blank; it never reaches the
      system prompt. */
  lemma RagBlockIff(a: Agents, task: Task, agentsMd: Option<Str>, ragContext: Option<Str>)
    ensures var bare := Request(a, task, agentsMd, None);
      var r := Request(a, task, agentsMd, ragContext);
      r.system == bare.system
      && (NullOrBlank(ragContext) ==> r.prompt == bare.prompt)
      && (!NullOrBlank(ragContext) ==> r.prompt == bare.prompt + "\nRAG CONTEXT:\n" + ragContext.value + "\n")
  {
    var body := a.templates.planFirst + "\n" + TaskText(a, task);
    assert body + [] == body;
    if !NullOrBlank(ragContext) {
      assert body + RagBlock(ragContext) == body + "\nRAG CONTEXT:\n" + ragContext.value + "\n";
    }
  }

  /** The guidance block ends the system prompt exactly when the agents
      text is neither null nor blank. */
  lemma GuidanceIff(a: Agents, agentsMd: Option<Str>, mode: Option<GenerationMode>)
    ensures var bare := SystemPrompt(a, None, mode);
      (NullOrBlank(agentsMd) ==> SystemPrompt(a, agentsMd, mode) == bare)
      && (!NullOrBlank(agentsMd) ==> SystemPrompt(a, agentsMd, mode) == bare + "\nGUIDANCE:\n" + agentsMd.value)
  {
    var head := a.templates.planFirst + "\nMode: " + ModeName(mode) + ". ";
    assert head + [] == head;
    if !NullOrBlank(agentsMd) {
      assert head + ("\nGUIDANCE:\n" + agentsMd.value) == head + "\nGUIDANCE:\n" + agentsMd.value;
    }
  }

  /** A null mode is named SINGLE, and the two modes give different
      system prompts. */
  lemma ModeNamed(a: Agents, agentsMd: Option<Str>)
    ensures SystemPrompt(a, agentsMd, None) == SystemPrompt(a, agentsMd, Some(SINGLE))
    ensures SystemPrompt(a, agentsMd, Some(COT)) != SystemPrompt(a, agentsMd, Some(SINGLE))
  {
    var k := |a.templates.planFirst + "\nMode: "|;
    assert SystemPrompt(a, agentsMd, Some(COT))[k] == 'C';
    assert SystemPrompt(a, agentsMd, Some(SINGLE))[k] == 'S';
  }

  /** Explain and lint name SINGLE whatever mode the caller holds. */
  lemma ExplainLintSingle(a: Agents, program: Str, agentsMd: Option<Str>, ragContext: Option<Str>)
    ensures Request(a, Explain(program), agentsMd, ragContext).system == SystemPrompt(a, agentsMd, Some(SINGLE))
    ensures Request(a, Lint(program), agentsMd, ragContext).system == SystemPrompt(a, agentsMd, Some(SINGLE))
  {
  }

  /** What the request text holds, the whole prompt holds. */
  lemma PromptHolds(a: Agents, task: Task, agentsMd: Option<Str>, ragContext: Option<Str>, t: Str)
    requires Contains(TaskText(a, task), t)
    ensures Contains(Request(a, task, agentsMd, ragContext).prompt, t)
  {
    ContainsWithin(a.templates.planFirst + "\n", TaskText(a, task), RagBlock(ragContext), t);
  }

  /** The spec prompt quotes the description, "null" when there is none. */
  lemma SpecPromptQuotes(a: Agents, description: Option<Str>, mode: Option<GenerationMode>,
                         agentsMd: Option<Str>, ragContext: Option<Str>)
    ensures Contains(Request(a, SpecFromVibe(description, mode), agentsMd, ragContext).prompt,
                     "DESCRIPTION:\n" + Shown(description) + "\n")
  {
    var t := "DESCRIPTION:\n" + Shown(description) + "\n";
    assert "\nDESCRIPTION:\n" == "\n" + "DESCRIPTION:\n";
    Regroup(SPEC_REQUEST, "\n", "DESCRIPTION:\n");
    Regroup3(SPEC_REQUEST + "\n", "DESCRIPTION:\n", Shown(description), "\n");
    ContainsEnd(SPEC_REQUEST + "\n", t);
    PromptHolds(a, SpecFromVibe(description, mode), agentsMd, ragContext, t);
  }

  /** The plan prompt quotes the spec as YAML, or the failure line when it
      cannot be written. */
  lemma PlanPromptQuotes(a: Agents, spec: VawkSpec, mode: Option<GenerationMode>,
                         agentsMd: Option<Str>, ragContext: Option<Str>)
    ensures var p := Request(a, PlanFromSpec(spec, mode), agentsMd, ragContext).prompt;
      Contains(p, "SPEC (YAML):\n" + ToYaml(a, spec) + "\n")
      && (a.yaml(spec).None? ==> Contains(p, "SPEC (YAML):\n" + YAML_FAILED + "\n"))
  {
    var pre := a.templates.planFromSpec + "\n";
    var t := "SPEC (YAML):\n" + ToYaml(a, spec) + "\n";
    Regroup3(pre, "SPEC (YAML):\n", ToYaml(a, spec), "\n");
    ContainsEnd(pre, t);
    ContainsAfter(pre + t, t, PLAN_REPLY);
    PromptHolds(a, PlanFromSpec(spec, mode), agentsMd, ragContext, t);
  }

  /** The code prompt quotes the plan ("null" when there is none) and the
      spec as YAML. */
  lemma CodePromptQuotes(a: Agents, plan: Option<Str>, spec: VawkSpec, mode: Option<GenerationMode>,
                         agentsMd: Option<Str>, ragContext: Option<Str>)
    ensures var p := Request(a, AwkFromPlan(plan, spec, mode), agentsMd, ragContext).prompt;
      Contains(p, "PLAN:\n" + Shown(plan) + "\n\n")
      && Contains(p, "SPEC (YAML):\n" + ToYaml(a, spec) + "\n")
      && (a.yaml(spec).None? ==> Contains(p, "SPEC (YAML):\n" + YAML_FAILED + "\n"))
  {
    var task := AwkFromPlan(plan, spec, mode);
    var pre := a.templates.codeFromPlan + "\n";
    var t1 := "PLAN:\n" + Shown(plan) + "\n\n";
    Regroup3(pre, "PLAN:\n", Shown(plan), "\n\n");
    ContainsEnd(pre, t1);
    ContainsAfter(pre + t1, t1, "SPEC (YAML):\n");
    ContainsAfter(pre + t1 + "SPEC (YAML):\n", t1, ToYaml(a, spec));
    ContainsAfter(pre + t1 + "SPEC (YAML):\n" + ToYaml(a, spec), t1, "\n");
    PromptHolds(a, task, agentsMd, ragContext, t1);
    var t2 := "SPEC (YAML):\n" + ToYaml(a, spec) + "\n";
    Regroup3(pre + t1, "SPEC (YAML):\n", ToYaml(a, spec), "\n");
    ContainsEnd(pre + t1, t2);
    PromptHolds(a, task, agentsMd, ragContext, t2);
  }

  /** The refine prompt quotes the spec as YAML, the current program fenced,
      and the change request ("null" when there is none). */
  lemma RefinePromptQuotes(a: Agents, changeRequest: Option<Str>, spec: VawkSpec, program: Str,
                           mode: Option<GenerationMode>, agentsMd: Option<Str>, ragContext: Option<Str>)
    ensures var p := Request(a, Refine(changeRequest, spec, program, mode), agentsMd, ragContext).prompt;
      Contains(p, "CURRENT SPEC (YAML):\n" + ToYaml(a, spec) + "\n")
      && Contains(p, "CURRENT CODE:\n" + Quoted(program))
      && Contains(p, "CHANGE REQUEST:\n" + Shown(changeRequest) + "\n")
      && (a.yaml(spec).None? ==> Contains(p, "CURRENT SPEC (YAML):\n" + YAML_FAILED + "\n"))
  {
    var task := Refine(changeRequest, spec, program, mode);
    var pre := a.templates.refine + "\n";
    var t1 := "CURRENT SPEC (YAML):\n" + ToYaml(a, spec) + "\n";
    var t2 := "CURRENT CODE:\n" + Quoted(program);
    var t3 := "CHANGE REQUEST:\n" + Shown(changeRequest) + "\n";
    Regroup3(pre, "CURRENT SPEC (YAML):\n", ToYaml(a, spec), "\n");
    Regroup(pre + t1, "CURRENT CODE:\n", Quoted(program));
    Regroup3(pre + t1 + t2, "CHANGE REQUEST:\n", Shown(changeRequest), "\n");
    assert TaskText(a, task) == pre + t1 + t2 + t3;
    ContainsSelf(t1);
    ContainsWithin(pre, t1, t2 + t3, t1);
    Regroup(pre + t1, t2, t3);
    ContainsSelf(t2);
    ContainsWithin(pre + t1, t2, t3, t2);
    ContainsEnd(pre + t1 + t2, t3);
    PromptHolds(a, task, agentsMd, ragContext, t1);
    PromptHolds(a, task, agentsMd, ragContext, t2);
    PromptHolds(a, task, agentsMd, ragContext, t3);
  }

  /** The explain and lint prompts quote the program, fenced, after "CODE:". */
  lemma ReviewPromptQuotes(a: Agents, program: Str, agentsMd: Option<Str>, ragContext: Option<Str>)
    ensures Contains(Request(a, Explain(program), agentsMd, ragContext).prompt, "CODE:\n" + Quoted(program))
    ensures Contains(Request(a, Lint(program), agentsMd, ragContext).prompt, "CODE:\n" + Quoted(program))
  {
    var t := "CODE:\n" + Quoted(program);
    Regroup(a.templates.explain + "\n", "CODE:\n", Quoted(program));
    ContainsEnd(a.templates.explain + "\n", t);
    PromptHolds(a, Explain(program), agentsMd, ragContext, t);
    Regroup(a.templates.lint + "\n", "CODE:\n", Quoted(program));
    ContainsEnd(a.templates.lint + "\n", t);
    PromptHolds(a, Lint(program), agentsMd, ragContext, t);
  }
}

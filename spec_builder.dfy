/** Turning a task description into a spec: the model's YAML spec when
    the agents are there and the reply can be read, otherwise a fixed
    heuristic spec shaped by whether AGENTS guidance exists. */
module SpecBuilder {
  import opened Wrappers
  import opened JavaText
  import opened Domain
  import opened VawkAgents

  /** `VawkSpecBuilder`: the agents (absent in the no-Spring constructor)
      and the YAML reader, which yields `None` when it throws or reads
      a null document. */
  datatype Builder = Builder(agents: Option<Agents>, readSpec: Str -> Option<VawkSpec>)

  const GUIDED_INPUT: Str := "Log line: <timestamp> <level> <user> <message...>"
  const GUIDED_OUTPUT: Str :=
    "Plain-text counts: total_lines, INFO, WARN, ERROR; optional per-user breakdown when by_user=1"
  const GUIDED_POSIX: Str := "POSIX awk only; no gawk extensions; single-pass streaming"
  const GUIDED_LARGE: Str := "No external commands; handle large files; skip comment/blank lines"
  const BY_USER: Str := "Respect -v by_user flag to group by user"
  const PLAIN_INPUT: Str := "Text lines; define fields as needed"
  const PLAIN_OUTPUT: Str := "AWK-generated text output per task description"
  const PLAIN_CONSTRAINT: Str := "POSIX awk, streaming"

  /** `heuristicSpec` as a value. */
  function Heuristic(description: Option<Str>, agentsMd: Option<Str>): VawkSpec {
    match agentsMd
    case Some(guidance) =>
      VawkSpec(description, [GUIDED_INPUT], [GUIDED_OUTPUT],
               [GUIDED_POSIX, GUIDED_LARGE] + (if Contains(guidance, "by_user") then [BY_USER] else []), [])
    case None =>
      VawkSpec(description, [PLAIN_INPUT], [PLAIN_OUTPUT], [PLAIN_CONSTRAINT], [])
  }

  /** `heuristicSpec`: fills the three lists one `add` at a time. */
  method HeuristicSpec(description: Option<Str>, agentsMd: Option<Str>) returns (spec: VawkSpec)
    ensures spec == Heuristic(description, agentsMd)
  {
    var inputs: seq<Str> := [];
    var outputs: seq<Str> := [];
    var constraints: seq<Str> := [];
    if agentsMd.Some? {
      var agentsMarkdown := agentsMd.value;
      inputs := inputs + [GUIDED_INPUT];
      outputs := outputs + [GUIDED_OUTPUT];
      constraints := constraints + [GUIDED_POSIX];
      constraints := constraints + [GUIDED_LARGE];
      if Contains(agentsMarkdown, "by_user") {
        constraints := constraints + [BY_USER];
      }
    } else {
      inputs := inputs + [PLAIN_INPUT];
      outputs := outputs + [PLAIN_OUTPUT];
      constraints := constraints + [PLAIN_CONSTRAINT];
    }
    spec := VawkSpec(description, inputs, outputs, constraints, []);
  }

  /** `parseSpec`: a reply without CODE, or with blank CODE, yields
      nothing; otherwise CODE is read as YAML. */
  function ParseSpec(b: Builder, response: Option<AiResponse>): (r: Option<VawkSpec>)
    ensures response.None? || response.value.code.None? || IsBlank(response.value.code.value) ==> r.None?
  {
    if response.None? || response.value.code.None? || IsBlank(response.value.code.value) then None
    else b.readSpec(response.value.code.value)
  }

  /** What the model route yields; `None` wherever `build` falls back. */
  function FromModel(b: Builder, description: Option<Str>, agentsMd: Option<Str>, ragContext: Option<Str>): Option<VawkSpec> {
    match b.agents
    case None => None
    case Some(agents) =>
      match Generate(agents, SpecFromVibe(description, Some(COT)), Some(agentsMd.GetOr([])), ragContext)
      case Err(_) => None
      case Ok(response) => ParseSpec(b, response)
  }

  /** `build`: the model's spec, or the heuristic one. */
  function Build(b: Builder, description: Option<Str>, agentsMd: Option<Str>, ragContext: Option<Str>): VawkSpec {
    match FromModel(b, description, agentsMd, ragContext)
    case Some(spec) => spec
    case None => Heuristic(description, agentsMd)
  }

  // ------------------------------------------------------ properties

  /** When `build` uses the heuristic: no agents, a client that throws,
      a null reply, CODE null or blank, or YAML that cannot be read;
      otherwise it returns the YAML's spec. */
  lemma BuildFallsBack(b: Builder, description: Option<Str>, agentsMd: Option<Str>, ragContext: Option<Str>)
    ensures b.agents.None? ==> Build(b, description, agentsMd, ragContext) == Heuristic(description, agentsMd)
    ensures b.agents.Some? ==>
      var reply := Generate(b.agents.value, SpecFromVibe(description, Some(COT)), Some(agentsMd.GetOr([])), ragContext);
      ((reply.Err? || reply.value.None? || reply.value.value.code.None? || IsBlank(reply.value.value.code.value))
         ==> Build(b, description, agentsMd, ragContext) == Heuristic(description, agentsMd))
      && (reply.Ok? && reply.value.Some? && reply.value.value.code.Some? && !IsBlank(reply.value.value.code.value) ==>
            var read := b.readSpec(reply.value.value.code.value);
            Build(b, description, agentsMd, ragContext) == if read.Some? then read.value else Heuristic(description, agentsMd))
  {
  }

  /** The spec request always asks for chain-of-thought planning and
      passes missing guidance on as the empty text. */
  lemma BuildAsksCot(a: Agents, description: Option<Str>, ragContext: Option<Str>)
    ensures Request(a, SpecFromVibe(description, Some(COT)), Some([]), ragContext).system
            == SystemPrompt(a, None, Some(COT))
  {
    GuidanceIff(a, Some([]), Some(COT));
  }

  /** The heuristic keeps the description and no examples; without
      guidance it has one input, one output and the single streaming
      constraint; with guidance two constraints, and the `by_user` one
      exactly when the guidance names `by_user`. */
  lemma HeuristicShape(description: Option<Str>, agentsMd: Option<Str>)
    ensures var spec := Heuristic(description, agentsMd);
      spec.description == description && spec.examples == []
      && |spec.inputs| == 1 && |spec.outputs| == 1
      && (agentsMd.None? ==> spec.constraints == [PLAIN_CONSTRAINT])
      && (agentsMd.Some? ==>
            spec.constraints[..2] == [GUIDED_POSIX, GUIDED_LARGE]
            && (|spec.constraints| == 3 <==> Contains(agentsMd.value, "by_user"))
            && (BY_USER in spec.constraints <==> Contains(agentsMd.value, "by_user")))
  {
    if agentsMd.Some? && !Contains(agentsMd.value, "by_user") {
      assert GUIDED_POSIX != BY_USER && GUIDED_LARGE != BY_USER by {
        assert |GUIDED_POSIX| != |BY_USER|;
        assert |GUIDED_LARGE| != |BY_USER|;
      }
    }
  }
}

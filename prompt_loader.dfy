/** Loads the three layered chat prompts (system, developer, project) from an
    override directory, `./prompts` or the class path, and caches each one
    the first time it is loaded. */
module PromptLoader {
  import opened Wrappers
  import opened JavaText
  import opened Domain

  const SYSTEM_FILE: Str := "vawk.system.md"
  const DEVELOPER_FILE: Str := "vawk.developer.md"
  const PROJECT_FILE: Str := "vawk.project.md"
  const PROJECT_EXAMPLE_FILE: Str := "vawk.project.example.md"
  const AGENTS_VAWK_FILE: Str := "AGENTS.vawk.md"
  const AGENTS_FILE: Str := "AGENTS.md"

  /** What joins the agents text to the project notes. */
  const PROJECT_NOTES_SEPARATOR: Str := "\n\n---\n\nAdditional project notes:\n\n"

  /** What the loader can see: the `vawk.prompts.dir` and `user.dir`
      properties, the disk, and the class path resources. */
  datatype Environment = Environment(
    promptsDir: Option<Str>,
    userDir: Option<Str>,
    disk: FileSystem,
    classpath: FileSystem)

  /** One place a prompt file may be found. */
  datatype Source = Source(files: FileSystem, path: Str)

  /** The text of the first readable source; an absent or unreadable one
      is passed over. */
  function FirstReadable(sources: seq<Source>): (r: Option<Str>)
    ensures r.None? <==> forall k | 0 <= k < |sources| :: !FileAt(sources[k].files, sources[k].path).Readable?
    decreases |sources|
  {
    if sources == [] then None
    else match FileAt(sources[0].files, sources[0].path)
      case Readable(text) => Some(text)
      case _ => FirstReadable(sources[1..])
  }

  /** The places `readFile` looks, in order: the override directory when
      it is set and not blank, then `prompts/`, then the class path. */
  function Candidates(env: Environment, filename: Str): seq<Source> {
    (if env.promptsDir.Some? && !IsBlank(env.promptsDir.value)
     then [Source(env.disk, Resolve(env.promptsDir.value, filename))] else [])
    + [Source(env.disk, Resolve("prompts", filename)),
       Source(env.classpath, "/prompts/" + filename)]
  }

  /** `readFile`: `None` is Java's null. */
  function ReadFile(env: Environment, filename: Str): Option<Str> {
    var fromOverride :=
      if env.promptsDir.Some? && !IsBlank(env.promptsDir.value) then
        match FileAt(env.disk, Resolve(env.promptsDir.value, filename))
        case Readable(text) => Some(text)
        case _ => None
      else None;
    if fromOverride.Some? then fromOverride
    else match FileAt(env.disk, Resolve("prompts", filename))
      case Readable(text) => Some(text)
      case _ =>
        match FileAt(env.classpath, "/prompts/" + filename)
        case Readable(text) => Some(text)
        case _ => None
  }

  /** The lookup chain picks the first readable candidate. */
  lemma ReadFileIsFirstReadable(env: Environment, filename: Str)
    ensures ReadFile(env, filename) == FirstReadable(Candidates(env, filename))
  {
    var last := [Source(env.classpath, "/prompts/" + filename)];
    var tail := [Source(env.disk, Resolve("prompts", filename))] + last;
    assert last[1..] == [];
    assert tail[1..] == last;
    assert FirstReadable(last) == match FileAt(env.classpath, "/prompts/" + filename)
      case Readable(text) => Some(text)
      case _ => None;
    assert FirstReadable(tail) == match FileAt(env.disk, Resolve("prompts", filename))
      case Readable(text) => Some(text)
      case _ => FirstReadable(last);
    var cs := Candidates(env, filename);
    if env.promptsDir.Some? && !IsBlank(env.promptsDir.value) {
      assert cs[1..] == tail;
      assert cs[0] == Source(env.disk, Resolve(env.promptsDir.value, filename));
    } else {
      assert cs == tail;
    }
  }

  /** `readRequired`: a missing or blank file is an error. */
  function ReadRequired(env: Environment, filename: Str): (r: Result<Str, Str>)
    ensures r.Ok? <==> ReadFile(env, filename).Some? && !IsBlank(ReadFile(env, filename).value)
    ensures r.Ok? ==> r.value == ReadFile(env, filename).value
    ensures r.Err? ==> r.error == "Missing required prompt: " + filename
  {
    var content := ReadFile(env, filename);
    if content.None? || IsBlank(content.value) then Err("Missing required prompt: " + filename)
    else Ok(content.value)
  }

  /** `readOptional`: a missing file reads as "". */
  function ReadOptional(env: Environment, filename: Str): Str {
    ReadFile(env, filename).GetOr("")
  }

  /** `readAgents`: AGENTS.vawk.md, else AGENTS.md, in the `user.dir`
      directory; "" when neither can be read or `user.dir` is unset. */
  function ReadAgents(env: Environment): Str {
    match env.userDir
    case None => ""
    case Some(cwd) =>
      match FileAt(env.disk, Resolve(cwd, AGENTS_VAWK_FILE))
      case Readable(text) => text
      case _ =>
        match FileAt(env.disk, Resolve(cwd, AGENTS_FILE))
        case Readable(text) => text
        case _ => ""
  }

  /** The agents files are also tried first-readable-first. */
  lemma ReadAgentsIsFirstReadable(env: Environment)
    requires env.userDir.Some?
    ensures ReadAgents(env)
         == FirstReadable([Source(env.disk, Resolve(env.userDir.value, AGENTS_VAWK_FILE)),
                           Source(env.disk, Resolve(env.userDir.value, AGENTS_FILE))]).GetOr("")
  {
    var cs := [Source(env.disk, Resolve(env.userDir.value, AGENTS_VAWK_FILE)),
               Source(env.disk, Resolve(env.userDir.value, AGENTS_FILE))];
    assert cs[1..][1..] == [];
  }

  /** How the project prompt joins the agents text and the project notes. */
  function Combine(agents: Str, project: Str): (r: Str)
    ensures r == [] <==> agents == [] && project == []
    ensures agents != [] ==> |agents| <= |r| && r[..|agents|] == agents
    ensures project != [] ==> |project| <= |r| && r[|r| - |project|..] == project
    ensures agents != [] && project != [] ==> |r| == |agents| + |PROJECT_NOTES_SEPARATOR| + |project|
    ensures agents == [] || project == [] ==> |r| == |agents| + |project|
  {
    if agents != [] then
      if project != [] then agents + PROJECT_NOTES_SEPARATOR + project else agents
    else project
  }

  /** The project prompt as `loadProjectPrompt` computes it on a cache miss:
      the example file stands in only for an empty project file. */
  function ProjectPrompt(env: Environment): Str {
    var agents := ReadAgents(env);
    var project := ReadOptional(env, PROJECT_FILE);
    var notes := if project == [] then ReadOptional(env, PROJECT_EXAMPLE_FILE) else project;
    Combine(agents, notes)
  }

  /** `VawkPromptLoader`: each prompt is read once and then served from its
      cache, even if the files change afterwards. */
  class Loader {
    /** What the loader sees on its next read; the files may change
        between calls. */
    var env: Environment
    var systemCache: Option<Str>
    var developerCache: Option<Str>
    var projectCache: Option<Str>

    constructor(env: Environment)
      ensures this.env == env
      ensures systemCache == None && developerCache == None && projectCache == None
    {
      this.env := env;
      systemCache := None;
      developerCache := None;
      projectCache := None;
    }

    /** What the next `loadSystemPrompt` returns. */
    function NextSystemPrompt(): Result<Str, Str>
      reads this
    {
      if systemCache.Some? then Ok(systemCache.value) else ReadRequired(env, SYSTEM_FILE)
    }

    /** What the next `loadDeveloperPrompt` returns. */
    function NextDeveloperPrompt(): Str
      reads this
    {
      if developerCache.Some? then developerCache.value else ReadOptional(env, DEVELOPER_FILE)
    }

    /** What the next `loadProjectPrompt` returns. */
    function NextProjectPrompt(): Str
      reads this
    {
      if projectCache.Some? then projectCache.value else ProjectPrompt(env)
    }

    /** `loadSystemPrompt`: fails, and caches nothing, when the system
        prompt is missing or blank. */
    method LoadSystemPrompt() returns (r: Result<Str, Str>)
      modifies this
      ensures env == old(env) && developerCache == old(developerCache) && projectCache == old(projectCache)
      ensures r == old(NextSystemPrompt())
      ensures systemCache == (if r.Ok? then Some(r.value) else None)
    {
      if systemCache.Some? {
        return Ok(systemCache.value);
      }
      r := ReadRequired(env, SYSTEM_FILE);
      if r.Ok? {
        systemCache := Some(r.value);
      }
    }

    /** `loadDeveloperPrompt`: a missing developer prompt is "". */
    method LoadDeveloperPrompt() returns (r: Str)
      modifies this
      ensures env == old(env) && systemCache == old(systemCache) && projectCache == old(projectCache)
      ensures r == old(NextDeveloperPrompt())
      ensures developerCache == Some(r)
    {
      if developerCache.None? {
        developerCache := Some(ReadOptional(env, DEVELOPER_FILE));
      }
      r := developerCache.value;
    }

    /** `loadProjectPrompt`. */
    method LoadProjectPrompt() returns (r: Str)
      modifies this
      ensures env == old(env) && systemCache == old(systemCache) && developerCache == old(developerCache)
      ensures r == old(NextProjectPrompt())
      ensures projectCache == Some(r)
    {
      if projectCache.None? {
        var agents := ReadAgents(env);
        var project := ReadOptional(env, PROJECT_FILE);
        if project == [] {
          project := ReadOptional(env, PROJECT_EXAMPLE_FILE);
        }
        if agents != [] {
          if project != [] {
            projectCache := Some(agents + PROJECT_NOTES_SEPARATOR + project);
          } else {
            projectCache := Some(agents);
          }
        } else {
          projectCache := Some(project);
        }
      }
      r := projectCache.value;
    }
  }
}

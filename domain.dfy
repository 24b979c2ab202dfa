/** The plain data holders passed between the components. */
module Domain {
  import opened Wrappers
  import opened JavaText

  /** The four sections of a structured model reply; `None` is Java's null. */
  datatype AiResponse = AiResponse(plan: Option<Str>, code: Option<Str>, tests: Option<Str>, notes: Option<Str>)

  /** How the planning prompt asks the model to reason. */
  datatype GenerationMode = SINGLE | COT

  /** The declarative description of an AWK job. */
  datatype VawkSpec = VawkSpec(
    description: Option<Str>,
    inputs: seq<Str>,
    outputs: seq<Str>,
    constraints: seq<Str>,
    examples: seq<Str>)

  /** The outcome of one test case; `diff` is absent on a pass. */
  datatype TestRun = TestRun(name: Str, passed: bool, diff: Option<Str>)

  /** One test fixture: its files, `-v` variables and optional program override. */
  datatype AwkTestCase = AwkTestCase(
    name: Str,
    inputPath: Str,
    expectedPath: Str,
    variables: map<Str, Str>,
    programOverride: Option<Str>)

  /** The receipt of one generation or refinement, as `.vawk/logs` keeps
      it (the timestamp and the always-null id are not kept). */
  datatype SessionLog = SessionLog(
    command: Str,
    mode: Option<GenerationMode>,
    model: Str,
    planText: Option<Str>,
    code: Str,
    testsText: Option<Str>,
    notes: Option<Str>,
    programHash: Option<Str>,
    specHash: Str,
    testsRequested: seq<Str>,
    testsRun: seq<TestRun>)

  /** A file as the application finds it on disk: absent, present but
      failing to read, or readable with its text. */
  datatype FileState = Missing | Unreadable | Readable(text: Str)

  /** The files visible to the application, by path; unlisted paths are absent. */
  type FileSystem = map<Str, FileState>

  function FileAt(fs: FileSystem, path: Str): FileState {
    if path in fs then fs[path] else Missing
  }

  /** `Files.exists`. */
  predicate Exists(fs: FileSystem, path: Str) {
    FileAt(fs, path) != Missing
  }

  /** The message of the exception a step throws; Java allows it to be null. */
  type Failure = Option<Str>

  /** `Files.readString`: fails with the path when the file cannot be read. */
  function ReadString(files: FileSystem, path: Str): (r: Result<Str, Failure>)
    ensures r.Ok? <==> FileAt(files, path).Readable?
    ensures r.Ok? ==> r.value == FileAt(files, path).text
  {
    match FileAt(files, path)
    case Readable(text) => Ok(text)
    case _ => Err(Some(path))
  }

  /** `Path.resolve` of a plain file name against a directory. */
  function Resolve(dir: Str, name: Str): Str {
    dir + "/" + name
  }

  /** One logged chat turn; `model` is absent on user turns. */
  datatype Turn = Turn(idx: int, role: Str, msg: Str, model: Option<Str>)

  /** A message handed to the chat model. */
  datatype Message = SystemMessage(text: Str) | UserMessage(text: Str) | AssistantMessage(text: Str)
}

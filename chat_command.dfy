/** The `chat` command: starts or resumes a session and runs either one
    message (one-shot) or a read-reply loop over standard input. A message
    that asks for code is wrapped in a request for the PLAN/CODE/TESTS/NOTES
    format; a reply that fails validation gets exactly one correction
    round. Every turn is appended to the session's ledger. */
module ChatCommand {
  import opened Wrappers
  import opened JavaText
  import opened Domain
  import opened SectionParser
  import opened SectionValidator
  import opened IntentDetector
  import opened PromptLoader
  import opened ChatPromptBuilder
  import opened ChatService

  /** The user turn sent after a reply that fails validation. */
  const CORRECTION: Str := "Please rewrite your last answer strictly in the required format: PLAN:, CODE: (with AWK header and ```awk fences), TESTS:, NOTES:. Do not add any other sections."

  const HEADER_REASON: Str := "CODE section missing required AWK header (# VAWK / Purpose / Intent / Input / Output)."
  const MISSING_REASON: Str := "Missing PLAN/CODE/TESTS/NOTES sections."
  const INCOMPLETE_REASON: Str := "Structured sections are incomplete (PLAN/CODE/TESTS/NOTES)."
  const UNPARSED_REASON: Str := "Could not parse structured PLAN/CODE/TESTS/NOTES reply."

  /** The line that ends the loop (after trimming). */
  const QUIT: Str := ":q"

  /** The model name an assistant turn is logged with. */
  function ModelName(hasClient: bool): Str {
    if hasClient then "chat-client" else "stub-chat"
  }

  // ------------------------------------------------------ failure reasons

  predicate NamesMissingSection(lower: Str) {
    Contains(lower, "missing plan") || Contains(lower, "missing code")
    || Contains(lower, "missing tests") || Contains(lower, "missing notes")
  }

  /** `mapReason`: the first matching rule, on the lower-cased message,
      picks one of four user-facing reasons. */
  function MapReason(raw: Str): (r: Str)
    ensures r in {HEADER_REASON, MISSING_REASON, INCOMPLETE_REASON, UNPARSED_REASON}
    ensures r == HEADER_REASON <==> Contains(Lower(raw), "awk header")
    ensures r == MISSING_REASON <==>
      !Contains(Lower(raw), "awk header") && NamesMissingSection(Lower(raw))
    ensures r == INCOMPLETE_REASON <==>
      !Contains(Lower(raw), "awk header") && !NamesMissingSection(Lower(raw))
      && Contains(Lower(raw), "missing") && Contains(Lower(raw), "section")
  {
    var lower := Lower(raw);
    if Contains(lower, "awk header") then HEADER_REASON
    else if NamesMissingSection(lower) then MISSING_REASON
    else if Contains(lower, "missing") && Contains(lower, "section") then INCOMPLETE_REASON
    else UNPARSED_REASON
  }

  /** A text lacking one of the pattern's chars cannot contain it. */
  lemma AbsentCharExcludes(s: Str, p: Str, c: char)
    requires c in p && c !in s
    ensures !Contains(s, p)
  {
  }

  lemma LowerConcat(a: Str, b: Str)
    ensures Lower(a + b) == Lower(a) + Lower(b)
  {
  }

  lemma HeaderMessageReason()
    ensures MapReason(HEADER_MISSING) == HEADER_REASON
  {
    var tail: Str := " missing required labels (VAWK/Purpose/Intent/Input/Output)";
    LowerConcat("AWK header", tail);
    assert Lower("AWK header") == "awk header";
    ContainsMiddle([], "awk header", Lower(tail));
    assert [] + "awk header" + Lower(tail) == Lower(HEADER_MISSING);
  }

  /** The message for a missing section, lower-cased. */
  lemma LowerSectionMissing(name: Str)
    ensures Lower(SectionMissing(name)) == "ai response " + ("missing " + Lower(name)) + " section"
  {
    var head: Str := "AI response ";
    assert Lower(head) == "ai response ";
    assert Lower("missing") == "missing";
    assert Lower(" ") == " ";
    assert Lower(" section") == " section";
    assert SectionMissing(name) == head + "missing" + " " + name + " section";
    LowerConcat(head + "missing" + " " + name, " section");
    LowerConcat(head + "missing" + " ", name);
    LowerConcat(head + "missing", " ");
    LowerConcat(head, "missing");
  }

  /** The lower-cased message names the section right after "missing "
      and has no 'w', so no "awk header". */
  lemma SectionMessageFacts(name: Str)
    requires 'w' !in Lower(name)
    ensures Contains(Lower(SectionMissing(name)), "missing " + Lower(name))
    ensures !Contains(Lower(SectionMissing(name)), "awk header")
  {
    LowerSectionMissing(name);
    var found := "missing " + Lower(name);
    ContainsMiddle("ai response ", found, " section");
    assert 'w' !in "ai response " && 'w' !in "missing " && 'w' !in " section";
    AbsentCharExcludes(Lower(SectionMissing(name)), "awk header", 'w');
  }

  /** The validator's messages for a reply that was parsed map onto the
      header reason and the missing-sections reason. */
  lemma ValidatorReasons()
    ensures MapReason(HEADER_MISSING) == HEADER_REASON
    ensures MapReason(PLAN_MISSING) == MISSING_REASON
    ensures MapReason(CODE_MISSING) == MISSING_REASON
    ensures MapReason(TESTS_MISSING) == MISSING_REASON
    ensures MapReason(NOTES_MISSING) == MISSING_REASON
  {
    HeaderMessageReason();
    PlanReason();
    CodeReason();
    TestsReason();
    NotesReason();
  }

  lemma PlanReason()
    ensures MapReason(PLAN_MISSING) == MISSING_REASON
  {
    assert Lower("PLAN") == "plan" && "missing " + "plan" == "missing plan";
    SectionMessageFacts("PLAN");
  }

  lemma CodeReason()
    ensures MapReason(CODE_MISSING) == MISSING_REASON
  {
    assert Lower("CODE") == "code" && "missing " + "code" == "missing code";
    SectionMessageFacts("CODE");
  }

  lemma TestsReason()
    ensures MapReason(TESTS_MISSING) == MISSING_REASON
  {
    assert Lower("TESTS") == "tests" && "missing " + "tests" == "missing tests";
    SectionMessageFacts("TESTS");
  }

  lemma NotesReason()
    ensures MapReason(NOTES_MISSING) == MISSING_REASON
  {
    assert Lower("NOTES") == "notes" && "missing " + "notes" == "missing notes";
    SectionMessageFacts("NOTES");
  }

  /** `validationError`: `None` when the parsed reply passes validation;
      otherwise the user-facing reason, which is only ever the header or
      the missing-sections one. */
  function ValidationError(reply: Str): (r: Option<Str>)
    ensures r.None? <==> Validate(Some(Sections(Some(reply)))).None?
    ensures r.Some? ==> r.value == HEADER_REASON || r.value == MISSING_REASON
    ensures r == Some(HEADER_REASON) <==> Validate(Some(Sections(Some(reply)))) == Some(HEADER_MISSING)
  {
    ValidatorReasons();
    match Validate(Some(Sections(Some(reply))))
    case None => None
    case Some(message) => Some(MapReason(message))
  }

  /** `isStructured`. */
  predicate IsStructured(reply: Str) {
    ValidationError(reply).None?
  }

  // ------------------------------------------------------ wrapping

  const FORMAT_REQUEST: Str := "\n\nPlease respond in this exact format:"

  /** One section of the requested layout: its header on a line of its own,
      then the placeholder body. */
  function Part(header: Str, body: Str): Str {
    header + [NL] + body + [NL]
  }

  /** The fenced program skeleton, with the five header labels. */
  const CODE_SKELETON: Str := "```awk\n# VAWK: <short_id>\n# Purpose: <what this script does>\n# Intent: <why it was built / how it should be used in the future>\n# Input: <input assumptions>\n# Output: <output description>\n...\n```\n"

  /** `lead`, then the four parts with the given placeholder bodies. */
  function Layout(lead: Str, plan: Str, code: Str, tests: Str, notes: Str): Str {
    lead + [NL] + Part("PLAN:", plan) + Part("CODE:", code) + Part("TESTS:", tests) + Part("NOTES:", notes)
  }

  /** `wrapOneShotMessage`: the message as a `Task:` line, then the four-section layout the
      reply must follow. */
  function WrapOneShotMessage(original: Str): (r: Str)
    ensures StartsWith(r, "Task: " + original)
  {
    var lead := "Task: " + original + FORMAT_REQUEST;
    LayoutLead(lead, "- steps\n", CODE_SKELETON, "- test descriptions\n", "- additional notes");
    assert lead[..|"Task: " + original|] == "Task: " + original;
    Layout(lead, "- steps\n", CODE_SKELETON, "- test descriptions\n", "- additional notes")
  }

  lemma LayoutLead(lead: Str, plan: Str, code: Str, tests: Str, notes: Str)
    ensures var r := Layout(lead, plan, code, tests, notes);
      |lead| <= |r| && r[..|lead|] == lead
  {
    var r := Layout(lead, plan, code, tests, notes);
    assert r == lead + ([NL] + Part("PLAN:", plan) + Part("CODE:", code) + Part("TESTS:", tests) + Part("NOTES:", notes));
  }

  /** The layout puts each of the four headers on a line of its own, in
      the order PLAN, CODE, TESTS, NOTES. */
  lemma LayoutListsSections(lead: Str, plan: Str, code: Str, tests: Str, notes: Str)
    returns (atPlan: nat, atCode: nat, atTests: nat, atNotes: nat)
    ensures var r := Layout(lead, plan, code, tests, notes);
      IsAt(r, [NL] + "PLAN:" + [NL], atPlan) && IsAt(r, [NL] + "CODE:" + [NL], atCode)
      && IsAt(r, [NL] + "TESTS:" + [NL], atTests) && IsAt(r, [NL] + "NOTES:" + [NL], atNotes)
      && atPlan < atCode < atTests < atNotes
  {
    atPlan, atCode, atTests, atNotes := PartsInOrder(lead, "PLAN:", plan, "CODE:", code, "TESTS:", tests, "NOTES:", notes);
  }

  /** Four parts after a lead line: each header on a line of its own, in
      order. */
  lemma PartsInOrder(lead: Str, h1: Str, b1: Str, h2: Str, b2: Str, h3: Str, b3: Str, h4: Str, b4: Str)
    returns (at1: nat, at2: nat, at3: nat, at4: nat)
    ensures var r := lead + [NL] + Part(h1, b1) + Part(h2, b2) + Part(h3, b3) + Part(h4, b4);
      IsAt(r, [NL] + h1 + [NL], at1) && IsAt(r, [NL] + h2 + [NL], at2)
      && IsAt(r, [NL] + h3 + [NL], at3) && IsAt(r, [NL] + h4 + [NL], at4)
      && at1 < at2 < at3 < at4
  {
    var p := Part(h1, b1);
    var c := Part(h2, b2);
    var t := Part(h3, b3);
    var n := Part(h4, b4);
    var a := lead + [NL];
    var b := a + p;
    var bc := b + c;
    var bct := bc + t;
    var r := bct + n;
    at1 := |a| - 1;
    PartAt(a, h1, b1, c + t + n, r);
    at2 := |b| - 1;
    PartAt(b, h2, b2, t + n, r);
    at3 := |bc| - 1;
    PartAt(bc, h3, b3, n, r);
    at4 := |bct| - 1;
    PartAt(bct, h4, b4, [], r);
  }

  /** The wrapped message lists the four headers, each on its own line. */
  lemma WrappedListsSections(original: Str) returns (atPlan: nat, atCode: nat, atTests: nat, atNotes: nat)
    ensures var r := WrapOneShotMessage(original);
      IsAt(r, [NL] + "PLAN:" + [NL], atPlan) && IsAt(r, [NL] + "CODE:" + [NL], atCode)
      && IsAt(r, [NL] + "TESTS:" + [NL], atTests) && IsAt(r, [NL] + "NOTES:" + [NL], atNotes)
      && atPlan < atCode < atTests < atNotes
  {
    atPlan, atCode, atTests, atNotes :=
      LayoutListsSections("Task: " + original + FORMAT_REQUEST, "- steps\n", CODE_SKELETON,
                          "- test descriptions\n", "- additional notes");
  }

  /** A part after text ending in a break has its header on a line. */
  lemma PartAt(before: Str, header: Str, body: Str, after: Str, r: Str)
    requires |before| >= 1 && before[|before| - 1] == NL
    requires r == before + Part(header, body) + after
    ensures IsAt(r, [NL] + header + [NL], |before| - 1)
  {
    var k := |before| - 1;
    assert r == before[..k] + ([NL] + header + [NL]) + (body + [NL] + after);
    assert r[k..k + |header| + 2] == [NL] + header + [NL];
  }

  // ------------------------------------------------------ specification

  /** How a message is handled: whether it asks for an explanation, how a
      request for code is wrapped, the correction sent after a reply that
      fails validation, and whether a reply passes. */
  datatype Policy = Policy(explains: Str -> bool, wrap: Str -> Str, correction: Str, structured: Str -> bool)

  /** The policy of `ChatCommand`: `detectIntent`, `wrapOneShotMessage`,
      the fixed correction text and `isStructured`. */
  function ChatPolicy(): Policy {
    Policy(m => DetectIntent(Some(m)) == EXPLAIN, WrapOneShotMessage, CORRECTION, IsStructured)
  }

  /** The messages sent to the chat model for a message after a history. */
  type Prompter = (seq<Turn>, Str) -> seq<Message>

  /** The prompt `generateAssistantReply` lays out, given the loaded system,
      developer and project prompts and the retrieval header and
      repository. */
  function ChatPrompter(system: Str, developer: Str, project: Str, header: Str, rag: Option<Retriever>): Prompter {
    (history, message) => PromptFor(system, developer, project, header, rag, history, message)
  }

  /** What stays fixed while the command runs: whether a chat model is
      configured, what loading the system prompt gives, the prompt sent
      with each message, and the command's policy. */
  datatype Config = Config(hasClient: bool, system: Result<Str, Str>, prompt: Prompter, policy: Policy)

  /** What the command changes: the ledgers, the answers the chat model
      has left, and the message lists sent to it. */
  datatype World = World(sessions: map<Str, seq<Record>>, replies: seq<Str>, calls: seq<seq<Message>>)

  /** The user turn and the assistant turn of one exchange. */
  function Exchange(n: int, now: Str, question: Str, answer: Str, hasClient: bool): seq<Record> {
    [TurnRecord(n, now, "user", question, None),
     TurnRecord(n + 1, now, "assistant", answer, Some(ModelName(hasClient)))]
  }

  /** One exchange: the reply, or the failure that ended it, and the new
      world. */
  datatype Asked = Asked(result: Result<Str, Str>, world: World)

  /** The chat model's side of one call: the reply, the answers left and
      the calls made. */
  function Answer(o: Config, w: World, question: Str, history: seq<Turn>): (Str, seq<Str>, seq<seq<Message>>)
    requires !(o.hasClient && o.system.Err?)
  {
    if o.hasClient then
      (ReplyAt(true, w.replies, 0, question), Consumed(w.replies, 1),
       w.calls + [o.prompt(history, question)])
    else (ReplyAt(false, w.replies, 0, question), w.replies, w.calls)
  }

  /** Append the question at `n`, ask the model with `history`, append the
      answer at `n + 1`. A missing ledger fails before anything is written;
      a chat model without a system prompt fails after the question. */
  function Ask(o: Config, w: World, id: Str, n: int, question: Str, history: seq<Turn>, now: Str): Asked {
    if id !in w.sessions then Asked(Err(SessionFile(id)), w)
    else
      var asked := w.sessions[id] + [TurnRecord(n, now, "user", question, None)];
      if o.hasClient && o.system.Err? then
        Asked(Err(o.system.error), w.(sessions := w.sessions[id := asked]))
      else
        var (reply, replies, calls) := Answer(o, w, question, history);
        Asked(Ok(reply), World(w.sessions[id := w.sessions[id] + Exchange(n, now, question, reply, o.hasClient)],
                               replies, calls))
  }

  /** The turns of one exchange as the running history holds them. */
  function TurnsOfExchange(n: int, question: Str, answer: Str, hasClient: bool): seq<Turn> {
    [Turn(n, "user", question, None), Turn(n + 1, "assistant", answer, Some(ModelName(hasClient)))]
  }

  /** How a turn of the loop, or the loop, ended: the session data carried
      on or the failure raised, and the new world. */
  datatype Progress = Progress(result: Result<SessionData, Str>, world: World)

  /** `handleTurn`: an explanation turn, logged under the meta's id. */
  function ExplainTurn(o: Config, w: World, data: SessionData, message: Str, now: Str): Progress {
    var n := data.nextIdx;
    var a := Ask(o, w, data.meta.sessionId, n, message, data.turns, now);
    match a.result
    case Err(e) => Progress(Err(e), a.world)
    case Ok(reply) =>
      Progress(Ok(SessionData(data.meta, data.turns + TurnsOfExchange(n, message, reply, o.hasClient), n + 2)), a.world)
  }

  /** The correction round after the reply at `n - 1` failed validation:
      the correction at `n` and the second reply at `n + 1`. */
  function Correct(o: Config, w: World, id: Str, n: int, history: seq<Turn>, now: Str): Asked {
    Ask(o, w, id, n, o.policy.correction, history + [Turn(n, "user", o.policy.correction, None)], now)
  }

  /** `handleCodeTurn`: the wrapped message, then a correction round when
      the first reply fails validation; logged under `id`. */
  function CodeTurn(o: Config, w: World, data: SessionData, id: Str, message: Str, now: Str): Progress {
    var n := data.nextIdx;
    var wrapped := o.policy.wrap(message);
    var a := Ask(o, w, id, n, wrapped, data.turns + [Turn(n, "user", wrapped, None)], now);
    match a.result
    case Err(e) => Progress(Err(e), a.world)
    case Ok(first) =>
      var history := data.turns + TurnsOfExchange(n, wrapped, first, o.hasClient);
      if o.policy.structured(first) then Progress(Ok(SessionData(data.meta, history, n + 2)), a.world)
      else CodeCorrection(o, a.world, data.meta, id, n + 2, history, now)
  }

  /** The correction round of `handleCodeTurn`, asked at `n` after
      `history`: the session grows by the correction and its reply. */
  function CodeCorrection(o: Config, w: World, meta: Session, id: Str, n: int, history: seq<Turn>, now: Str): Progress {
    var b := Correct(o, w, id, n, history, now);
    match b.result
    case Err(e) => Progress(Err(e), b.world)
    case Ok(second) =>
      Progress(Ok(SessionData(meta, history + TurnsOfExchange(n, o.policy.correction, second, o.hasClient), n + 2)), b.world)
  }

  /** One non-blank line of the loop: an explanation request goes to
      `handleTurn`, anything else to `handleCodeTurn`. */
  function Turned(o: Config, w: World, data: SessionData, id: Str, line: Str, now: Str): Progress {
    if o.policy.explains(line) then ExplainTurn(o, w, data, line, now)
    else CodeTurn(o, w, data, id, line, now)
  }

  /** One turn of the loop, on the world and session data it finds. */
  type Turner = (World, SessionData, Str) -> Progress

  /** The loop over the lines of standard input, whatever a turn does: it
      stops at the end of input or at a line that trims to `:q`, skips a
      line that trims to nothing, and ends at the first failing turn. */
  function Loop(turn: Turner, w: World, data: SessionData, lines: seq<Str>): Progress
    decreases |lines|
  {
    if lines == [] || Trim(lines[0]) == QUIT then Progress(Ok(data), w)
    else if Trim(lines[0]) == [] then Loop(turn, w, data, lines[1..])
    else
      var t := turn(w, data, lines[0]);
      match t.result
      case Err(_) => t
      case Ok(next) => Loop(turn, t.world, next, lines[1..])
  }

  /** The turn of the `chat` loop for session `id`. */
  function ChatTurn(o: Config, id: Str, now: Str): Turner {
    (w, data, line) => Turned(o, w, data, id, line, now)
  }

  /** The `chat` loop of `call`. */
  function Repl(o: Config, w: World, data: SessionData, id: Str, lines: seq<Str>, now: Str): Progress {
    Loop(ChatTurn(o, id, now), w, data, lines)
  }

  /** How the command ended: its exit code or the failure it raised, and
      the new world. */
  datatype Finished = Finished(result: Result<int, Str>, world: World)

  /** `handleOneShot` for a message that does not ask for an explanation:
      wrapped, with at most one correction round; exits 1 exactly when the
      corrected reply still fails validation. */
  function OneShotCode(o: Config, w: World, data: SessionData, id: Str, message: Str, now: Str): Finished {
    var n := data.nextIdx;
    var wrapped := o.policy.wrap(message);
    OneShotAfter(o, Ask(o, w, id, n, wrapped, data.turns, now), data, id, wrapped, now)
  }

  /** `handleOneShot` once the wrapped message at the next index got the
      answer `a`. */
  function OneShotAfter(o: Config, a: Asked, data: SessionData, id: Str, wrapped: Str, now: Str): Finished {
    match a.result
    case Err(e) => Finished(Err(e), a.world)
    case Ok(first) =>
      if o.policy.structured(first) then Finished(Ok(0), a.world)
      else OneShotCorrection(o, a.world, id, data.nextIdx + 2, data.turns + TurnsOfExchange(data.nextIdx, wrapped, first, o.hasClient), now)
  }

  /** The correction round of `handleOneShot`: exit 0 when the second
      reply is structured, 1 when it is not. */
  function OneShotCorrection(o: Config, w: World, id: Str, n: int, history: seq<Turn>, now: Str): Finished {
    var b := Correct(o, w, id, n, history, now);
    match b.result
    case Err(e) => Finished(Err(e), b.world)
    case Ok(second) => Finished(Ok(if o.policy.structured(second) then 0 else 1), b.world)
  }

  /** `handleOneShot`: an explanation is asked as is and exits 0. */
  function OneShot(o: Config, w: World, data: SessionData, id: Str, message: Str, now: Str): Finished {
    if o.policy.explains(message) then
      var a := Ask(o, w, id, data.nextIdx, message, data.turns, now);
      match a.result
      case Err(e) => Finished(Err(e), a.world)
      case Ok(_) => Finished(Ok(0), a.world)
    else OneShotCode(o, w, data, id, message, now)
  }

  /** Where `call` starts: a new session (with the given id, clock reading
      and working directory) at index 1, or the loaded one. */
  function Start(w: World, sessionId: Option<Str>, title: Option<Str>, newId: Str, createdAt: Str, cwd: Str)
    : Result<(SessionData, Str, World), Str>
  {
    if NullOrBlank(sessionId) then
      Ok((SessionData(Session(newId, createdAt, cwd, title), [], 1), newId,
          w.(sessions := w.sessions[newId := [MetaRecord(newId, createdAt, cwd, title)]])))
    else match Loaded(w.sessions, sessionId.value)
      case Err(e) => Err(e)
      case Ok(data) => Ok((data, sessionId.value, w))
  }

  /** `call`: a load failure ends the command; the loop always exits 0
      unless an exchange fails. */
  function Run(o: Config, w: World, sessionId: Option<Str>, title: Option<Str>, oneShot: Option<Str>,
               newId: Str, createdAt: Str, cwd: Str, stdin: seq<Str>, now: Str): Finished
  {
    match Start(w, sessionId, title, newId, createdAt, cwd)
    case Err(e) => Finished(Err(e), w)
    case Ok((data, id, w1)) =>
      if oneShot.Some? then OneShot(o, w1, data, id, oneShot.value, now)
      else
        var p := Repl(o, w1, data, id, stdin, now);
        match p.result
        case Err(e) => Finished(Err(e), p.world)
        case Ok(_) => Finished(Ok(0), p.world)
  }

  // ------------------------------------------------------ the command

  /** Logging the question and then the answer logs the exchange. */
  lemma LogExchange(sessions: map<Str, seq<Record>>, id: Str, n: int, now: Str, question: Str, answer: Str, hasClient: bool)
    requires id in sessions
    ensures var asked := sessions[id := sessions[id] + [TurnRecord(n, now, "user", question, None)]];
      asked[id := asked[id] + [TurnRecord(n + 1, now, "assistant", answer, Some(ModelName(hasClient)))]]
      == sessions[id := sessions[id] + Exchange(n, now, question, answer, hasClient)]
  {
    TwoAppends(sessions[id], TurnRecord(n, now, "user", question, None),
               TurnRecord(n + 1, now, "assistant", answer, Some(ModelName(hasClient))));
  }

  /** Two appends in a row append the pair. */
  lemma TwoAppends<T>(s: seq<T>, a: T, b: T)
    ensures s + [a] + [b] == s + [a, b]
  {
  }

  /** `ChatCommand`: the `--session`, `--title` and `--one-shot` options and
      the chat service. A new session's id is kept in `sessionId`. */
  class Command {
    var sessionId: Option<Str>
    const title: Option<Str>
    const oneShot: Option<Str>
    const service: Service
    /** Always `ChatPolicy()`. */
    const policy: Policy

    constructor(sessionId: Option<Str>, title: Option<Str>, oneShot: Option<Str>, service: Service)
      ensures this.sessionId == sessionId && this.title == title && this.oneShot == oneShot
      ensures this.service == service && policy == ChatPolicy()
    {
      policy := ChatPolicy();
      this.sessionId := sessionId;
      this.title := title;
      this.oneShot := oneShot;
      this.service := service;
    }

    /** What the command changes. */
    function WorldOf(): World
      reads service
    {
      World(service.sessions, service.replies, service.calls)
    }

    /** What the command leaves as it is: the chat model's configuration
        and what loading the prompts gives. */
    function ConfigOf(): Config
      reads service.builder.loader
    {
      var loader := service.builder.loader;
      var system := loader.NextSystemPrompt();
      Config(service.hasClient, system,
             ChatPrompter(if system.Ok? then system.value else [], loader.NextDeveloperPrompt(),
                          loader.NextProjectPrompt(), service.contextHeader, service.rag),
             policy)
    }

    /** The chat model's answer to `question` after `history`; the ledger
        is left as it is. */
    method Reply(question: Str, history: seq<Turn>) returns (r: Result<Str, Str>)
      modifies service, service.builder.loader
      ensures old(ConfigOf()).hasClient && old(ConfigOf()).system.Err? ==>
        r == Err(old(ConfigOf()).system.error) && WorldOf() == old(WorldOf())
      ensures !(old(ConfigOf()).hasClient && old(ConfigOf()).system.Err?) ==>
        var (reply, replies, calls) := old(Answer(ConfigOf(), WorldOf(), question, history));
        r == Ok(reply) && WorldOf() == World(old(service.sessions), replies, calls)
      ensures ConfigOf() == old(ConfigOf())
    {
      r := service.GenerateAssistantReply(history, question);
    }

    /** One exchange with the chat model, logged under `id` at `n` and
        `n + 1`. */
    method AskModel(id: Str, n: int, question: Str, history: seq<Turn>, now: Str) returns (r: Result<Str, Str>)
      modifies service, service.builder.loader
      ensures Asked(r, WorldOf()) == old(Ask(ConfigOf(), WorldOf(), id, n, question, history, now))
      ensures ConfigOf() == old(ConfigOf())
    {
      ghost var o, w := ConfigOf(), WorldOf();
      var asked := service.AppendUserTurn(id, n, question, now);
      if asked.Err? {
        return Err(asked.error);
      }
      var reply := Reply(question, history);
      if reply.Err? {
        return Err(reply.error);
      }
      var logged := service.AppendAssistantTurn(id, n + 1, reply.value, Some(ModelName(service.hasClient)), now);
      LogExchange(w.sessions, id, n, now, question, reply.value, service.hasClient);
      r := Ok(reply.value);
    }

    /** `handleTurn`. */
    method HandleTurn(data: SessionData, message: Str, now: Str) returns (r: Result<SessionData, Str>)
      modifies service, service.builder.loader
      ensures Progress(r, WorldOf()) == old(ExplainTurn(ConfigOf(), WorldOf(), data, message, now))
      ensures ConfigOf() == old(ConfigOf())
    {
      var reply := AskModel(data.meta.sessionId, data.nextIdx, message, data.turns, now);
      match reply {
        case Err(e) => r := Err(e);
        case Ok(answer) =>
          r := Ok(SessionData(data.meta, data.turns + TurnsOfExchange(data.nextIdx, message, answer, service.hasClient),
                              data.nextIdx + 2));
      }
    }

    /** `handleCodeTurn`: logged under the command's session id. */
    method HandleCodeTurn(data: SessionData, message: Str, now: Str) returns (r: Result<SessionData, Str>)
      requires sessionId.Some?
      modifies service, service.builder.loader
      ensures Progress(r, WorldOf()) == old(CodeTurn(ConfigOf(), WorldOf(), data, sessionId.value, message, now))
      ensures ConfigOf() == old(ConfigOf())
    {
      var n := data.nextIdx;
      var wrapped := policy.wrap(message);
      var history := data.turns + [Turn(n, "user", wrapped, None)];
      var first := AskModel(sessionId.value, n, wrapped, history, now);
      if first.Err? {
        return Err(first.error);
      }
      history := data.turns + TurnsOfExchange(n, wrapped, first.value, service.hasClient);
      if policy.structured(first.value) {
        return Ok(SessionData(data.meta, history, n + 2));
      }
      r := CorrectCode(data.meta, n + 2, history, now);
    }

    /** `handleOneShot`. */
    method HandleOneShot(data: SessionData, message: Str, now: Str) returns (r: Result<int, Str>)
      requires sessionId.Some?
      modifies service, service.builder.loader
      ensures Finished(r, WorldOf()) == old(OneShot(ConfigOf(), WorldOf(), data, sessionId.value, message, now))
      ensures ConfigOf() == old(ConfigOf())
    {
      if policy.explains(message) {
        var reply := AskModel(sessionId.value, data.nextIdx, message, data.turns, now);
        if reply.Err? {
          return Err(reply.error);
        }
        return Ok(0);
      }
      r := HandleOneShotCode(data, message, now);
    }

    /** `handleOneShot` for a request for code: one correction round when
        the first reply is not structured. */
    method HandleOneShotCode(data: SessionData, message: Str, now: Str) returns (r: Result<int, Str>)
      requires sessionId.Some?
      modifies service, service.builder.loader
      ensures Finished(r, WorldOf()) == old(OneShotCode(ConfigOf(), WorldOf(), data, sessionId.value, message, now))
      ensures ConfigOf() == old(ConfigOf())
    {
      var wrapped := policy.wrap(message);
      var first := AskModel(sessionId.value, data.nextIdx, wrapped, data.turns, now);
      r := FinishOneShot(data, wrapped, first, now);
    }

    /** The rest of `handleOneShot` once the wrapped message got `first`. */
    method FinishOneShot(data: SessionData, wrapped: Str, first: Result<Str, Str>, now: Str) returns (r: Result<int, Str>)
      requires sessionId.Some?
      modifies service, service.builder.loader
      ensures Finished(r, WorldOf()) == old(OneShotAfter(ConfigOf(), Asked(first, WorldOf()), data, sessionId.value, wrapped, now))
      ensures ConfigOf() == old(ConfigOf())
    {
      if first.Err? {
        return Err(first.error);
      }
      if policy.structured(first.value) {
        return Ok(0);
      }
      var history := data.turns + TurnsOfExchange(data.nextIdx, wrapped, first.value, service.hasClient);
      r := CorrectOneShot(data.nextIdx + 2, history, now);
    }

    /** The correction round of `handleCodeTurn`. */
    method CorrectCode(meta: Session, n: int, history: seq<Turn>, now: Str) returns (r: Result<SessionData, Str>)
      requires sessionId.Some?
      modifies service, service.builder.loader
      ensures Progress(r, WorldOf()) == old(CodeCorrection(ConfigOf(), WorldOf(), meta, sessionId.value, n, history, now))
      ensures ConfigOf() == old(ConfigOf())
    {
      var second := AskModel(sessionId.value, n, policy.correction, history + [Turn(n, "user", policy.correction, None)], now);
      if second.Err? {
        return Err(second.error);
      }
      r := Ok(SessionData(meta, history + TurnsOfExchange(n, policy.correction, second.value, service.hasClient), n + 2));
    }

    /** The correction round of `handleOneShot`. */
    method CorrectOneShot(n: int, history: seq<Turn>, now: Str) returns (r: Result<int, Str>)
      requires sessionId.Some?
      modifies service, service.builder.loader
      ensures Finished(r, WorldOf()) == old(OneShotCorrection(ConfigOf(), WorldOf(), sessionId.value, n, history, now))
      ensures ConfigOf() == old(ConfigOf())
    {
      var second := AskModel(sessionId.value, n, policy.correction, history + [Turn(n, "user", policy.correction, None)], now);
      if second.Err? {
        return Err(second.error);
      }
      r := Ok(if policy.structured(second.value) then 0 else 1);
    }

    /** The read-reply loop of `call`. */
    method ReadReplyLoop(data: SessionData, lines: seq<Str>, now: Str) returns (r: Result<SessionData, Str>)
      requires sessionId.Some?
      modifies service, service.builder.loader
      ensures Progress(r, WorldOf()) == old(Repl(ConfigOf(), WorldOf(), data, sessionId.value, lines, now))
      ensures ConfigOf() == old(ConfigOf())
    {
      ghost var o, w0 := ConfigOf(), WorldOf();
      ghost var turn := ChatTurn(o, sessionId.value, now);
      var current := data;
      var i := 0;
      while i < |lines|
        invariant 0 <= i <= |lines|
        invariant ConfigOf() == o
        invariant Loop(turn, w0, data, lines) == Loop(turn, WorldOf(), current, lines[i..])
        decreases |lines| - i
      {
        var line := lines[i];
        if Trim(line) == QUIT {
          break;
        }
        if Trim(line) != [] {
          var next;
          if policy.explains(line) {
            next := HandleTurn(current, line, now);
          } else {
            next := HandleCodeTurn(current, line, now);
          }
          match next {
            case Err(e) => return Err(e);
            case Ok(d) => current := d;
          }
        }
        i := i + 1;
      }
      r := Ok(current);
    }

    /** `call`: start or resume the session, then run the one-shot message
        or the loop; the loop exits 0. */
    method Call(newId: Str, createdAt: Str, cwd: Str, stdin: seq<Str>, now: Str) returns (r: Result<int, Str>)
      modifies this, service, service.builder.loader
      ensures Finished(r, WorldOf())
           == old(Run(ConfigOf(), WorldOf(), sessionId, title, oneShot, newId, createdAt, cwd, stdin, now))
      ensures sessionId == if NullOrBlank(old(sessionId)) then Some(newId) else old(sessionId)
    {
      var data;
      if NullOrBlank(sessionId) {
        var session := service.CreateSession(title, newId, createdAt, cwd);
        data := SessionData(session, [], 1);
        sessionId := Some(newId);
      } else {
        var loaded := service.LoadSession(sessionId.value);
        if loaded.Err? {
          return Err(loaded.error);
        }
        data := loaded.value;
      }
      if oneShot.Some? {
        r := HandleOneShot(data, oneShot.value, now);
        return;
      }
      var ended := ReadReplyLoop(data, stdin, now);
      r := if ended.Ok? then Ok(0) else Err(ended.error);
    }
  }
}

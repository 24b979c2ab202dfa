# vawk core in Dafny

vawk is a command-line assistant that writes AWK programs with a language
model and holds the model to a structured reply: a PLAN, a CODE section that
opens with a five-label `# VAWK:` header, TESTS and NOTES. This project
models the deterministic core of vawk and proves what it promises.

- **Structured replies.** `SectionParser` splits model text into the four
  sections and strips code fences. `SectionValidator` checks the sections in
  a fixed order and looks for the AWK header within the first ten counted
  lines.
- **Intent.** `IntentDetector` classifies a chat message as EXPLAIN, CODE or
  MIXED.
- **Chat.** `ChatService` is the append-only session ledger: one meta record,
  then one record per turn. It also loads a ledger, trims the history,
  builds the retrieval context and gets replies from the model or the stub.
- **Prompts.** `ChatPromptBuilder` lays out the message list of a call.
  `PromptLoader` finds, combines and caches the three prompt layers.
  `VawkAgents` builds the prompt texts.
- **Chat command.** `ChatCommand` runs one-shot and loop turns: the explain
  path, and the structured path with exactly one correction round.
  `ChatProperties` proves what those turns do to the ledger, which model
  calls they make and which exit codes they return.
- **Retrieval.** `RagRepository` parses the index files, scores and ranks
  entries, and reads content only from paths that stay inside the docs
  tree.
- **Pipelines.** `GeneratorService` and `RefinementService` run the
  generation and refinement steps, in the order in which they write the
  spec, the program and the session log. `SpecBuilder` builds the fallback
  spec.
- **Tests.** `TestRepository` discovers fixtures. `AwkTestRunner` applies
  the pass/fail rule.
- **Other commands.** `PromoteCommand` turns one chat turn into a job.
  `RunCommand` parses `-v` assignments and runs a program.
- **Shared modules.** `Repositories` models the working-directory stores.
  `Domain` holds the data records. `JavaText` states the
  `java.lang.String` and `Integer` operations vawk uses. `Wrappers` holds
  `Option` and `Result`.

The file system, the chat model, the awk process, SHA-256, the YAML and JSON
libraries, clocks and UUIDs are not modelled. They appear as parameters: a
map from paths to readable or unreadable text, a sequence of model replies,
and function values. State the source keeps in objects becomes classes:
- the prompt loader's caches;
- the chat service's ledgers, replies and calls;
- the working directory the pipelines write to;
- the jobs `promote` creates;
- the session logs `run` appends.

Each class method is proved equal to a function of the old state. The
properties are proved about those functions.

Two behaviours of the code worth knowing:
- `readContent` rejects a path only when the normalised path leaves its
  base, so `snippets/a/../b` is read;
- `loadSession` never checks that the meta record comes first, and a later
  meta record replaces an earlier one.

## Model

| member | source | states |
|---|---|---|
| SectionParser.StripCodeFences | src/main/java/com/vawk/util/SectionParser.java:98-112 | null stays null; text that does not start with ``` once trimmed comes back trimmed; the result is always already trimmed |
| SectionParser.StripFencedBlock | src/main/java/com/vawk/util/SectionParser.java:103-109 | a fenced block (```tag, newline, body, ```) gives its body trimmed, and the inner text is exactly what lies between the first newline and the last fence |
| SectionParser.Sections | src/main/java/com/vawk/util/SectionParser.java:19-54 | a null reply gives four absent sections; any other reply gives all four present |
| SectionParser.Parse | src/main/java/com/vawk/util/SectionParser.java:19-54 | the line scanner with one builder per section returns exactly `Sections(raw)` (each section's routed lines joined by the builder and trimmed, CODE fence-stripped) |
| SectionParser.RoutedConcat | src/main/java/com/vawk/util/SectionParser.java:28-46 | scanning a concatenation routes the first part, then the second from the section the first part ends in |
| SectionParser.RoutedSnoc | src/main/java/com/vawk/util/SectionParser.java:30-46 | one more line is routed only to the current section, and the state after it is one scan step |
| SectionParser.BuilderStep | src/main/java/com/vawk/util/SectionParser.java:30-46 | one more scanned line either switches section or extends exactly the builder of the current section |
| SectionParser.CollectSnoc | src/main/java/com/vawk/util/SectionParser.java:80-85 | the builder after one more line is `appendLine` of the builder before it |
| SectionParser.HeadersNeverRouted | src/main/java/com/vawk/util/SectionParser.java:31-36 | no header line (PLAN:/CODE:/TESTS:/NOTES:, trimmed, any case) ever lands in a section's lines |
| SectionParser.RoutedNoHeaders | src/main/java/com/vawk/util/SectionParser.java:38-45 | header-free lines all go to the section the scan starts in, which does not change |
| SectionParser.PreambleDiscarded | src/main/java/com/vawk/util/SectionParser.java:28-44 | lines before the first header reach no section |
| SectionParser.RepeatedHeaderAppends | src/main/java/com/vawk/util/SectionParser.java:32-42 | a header for a section already seen keeps appending to that section, after what it held |
| SectionParser.RoutedHeader | src/main/java/com/vawk/util/SectionParser.java:32-36 | a header line is routed nowhere and makes its section current |
| SectionParser.RoutedBlock | src/main/java/com/vawk/util/SectionParser.java:30-46 | a header followed by header-free lines sends exactly those lines to the header's section |
| SectionParser.CollectJoin | src/main/java/com/vawk/util/SectionParser.java:80-85 | the builder text is the newline join of the lines less only leading newlines (those of leading empty lines) |
| SectionParser.SectionIsTrimmedJoin | src/main/java/com/vawk/util/SectionParser.java:38-85 | each section, once trimmed, is its lines joined by single newlines and trimmed |
| SectionParser.SectionOfRendered | src/main/java/com/vawk/util/SectionParser.java:29-53 | splitting a text into lines and building it back gives the text again up to trimming |
| SectionParser.FourBlockRouted | src/main/java/com/vawk/util/SectionParser.java:28-46 | a header-free preamble then four header-led blocks route each block's lines to its own section |
| SectionParser.RenderRouted | src/main/java/com/vawk/util/SectionParser.java:28-46 | a reply written in the PLAN/CODE/TESTS/NOTES layout routes each section's own lines to it |
| SectionParser.RenderSection | src/main/java/com/vawk/util/SectionParser.java:48-53 | in such a reply each section's text is the trimmed text written for it |
| SectionParser.ParseRender | src/main/java/com/vawk/util/SectionParser.java:19-54 | parsing a reply laid out in the required format (after any header-free preamble) gives back each section trimmed, CODE also fence-stripped |
| SectionParser.ParseTestsList | src/main/java/com/vawk/util/SectionParser.java:59-78 | null gives no items; otherwise one item per line of the text, via `TestItem` |
| SectionParser.TestItemsConcat | src/main/java/com/vawk/util/SectionParser.java:65-76 | items are taken line by line, in order: the items of a concatenation are the items of each part |
| SectionParser.TestItemsTrimmed | src/main/java/com/vawk/util/SectionParser.java:66-75 | every item is non-empty and already trimmed |
| SectionParser.BulletItem | src/main/java/com/vawk/util/SectionParser.java:70-72 | `- d` gives back `d` for a trimmed one-line description |
| SectionParser.BulletsItems | src/main/java/com/vawk/util/SectionParser.java:65-76 | a list of bullet lines gives back the descriptions in order |
| SectionParser.ParseTestsListOfBullets | src/main/java/com/vawk/util/SectionParser.java:59-78 | a TESTS section written as one `- description` per line parses back to those descriptions |
| SectionValidator.MessagesDistinct | src/main/java/com/vawk/util/SectionValidator.java:21-83 | the six failure messages are pairwise different, so the message names the first failing check |
| SectionValidator.StripFence | src/main/java/com/vawk/util/SectionValidator.java:86-96 | text that does not start with ``` once trimmed comes back trimmed (the fenced case is stated by `FencedLikeBare`) |
| SectionValidator.RequireAwkHeader | src/main/java/com/vawk/util/SectionValidator.java:44-84 | the scan with five flags and the `checked` counter fails, with the header message, exactly when some label starts none of the first 10 counted lines |
| SectionValidator.CountedConcat | src/main/java/com/vawk/util/SectionValidator.java:53-76 | the counted lines of a concatenation are those of each part, in order |
| SectionValidator.LabelledSnoc | src/main/java/com/vawk/util/SectionValidator.java:61-75 | a label is seen after one more counted line iff it was seen before or that line starts with it |
| SectionValidator.CountedStep | src/main/java/com/vawk/util/SectionValidator.java:54-76 | one more line adds its trimmed text to the counted lines unless it is blank or a `#!` line |
| SectionValidator.WindowReached | src/main/java/com/vawk/util/SectionValidator.java:76-79 | once 10 lines are counted the window is exactly those lines (the early break loses nothing) |
| SectionValidator.Validate | src/main/java/com/vawk/util/SectionValidator.java:19-36 | passes iff the response exists, PLAN and CODE are not blank, the header is present, TESTS and NOTES are not blank; each message is reported exactly when its check is the first to fail, in the order response, PLAN, CODE, header, TESTS, NOTES |
| SectionValidator.RequirePlanCodeTestsNotes | src/main/java/com/vawk/util/SectionValidator.java:19-36 | the early-exit checks report exactly `Validate(response)`; success changes nothing |
| SectionValidator.SkippedLineIgnored | src/main/java/com/vawk/util/SectionValidator.java:55-60 | inserting a blank or `#!` line anywhere changes neither the counted lines nor the verdict |
| SectionValidator.LateLinesIgnored | src/main/java/com/vawk/util/SectionValidator.java:76-79 | after 10 counted lines, whatever follows changes neither the window nor the verdict |
| SectionValidator.LateLabelFails | src/main/java/com/vawk/util/SectionValidator.java:76-83 | a label missing from the first 10 counted lines fails the header whatever follows |
| SectionValidator.CountedDropTrailing | src/main/java/com/vawk/util/SectionValidator.java:46 | dropping the trailing empty fields of `split` changes no counted line |
| SectionValidator.CountedLinesNoTrailing | src/main/java/com/vawk/util/SectionValidator.java:46 | `split("\\R")` and the split keeping trailing fields give the same counted lines |
| SectionValidator.CountedTrailingBreak | src/main/java/com/vawk/util/SectionValidator.java:46-57 | a trailing line break adds no counted line |
| SectionValidator.FencedLikeBare | src/main/java/com/vawk/util/SectionValidator.java:86-96 | a fenced CODE section and its bare body pass or fail the header check alike |
| SectionValidator.SameCountedSameHeader | src/main/java/com/vawk/util/SectionValidator.java:53-83 | the verdict depends only on the counted lines |
| SectionValidator.UnlabelledFails | src/main/java/com/vawk/util/SectionValidator.java:81-83 | a one-line script not starting with `#` (such as `print "ok"`) fails the header check |
| SectionValidator.EmptyCodeFails | src/main/java/com/vawk/util/SectionValidator.java:81-83 | empty code fails the header check |
| SectionValidator.RenderedReplyValidates | src/main/java/com/vawk/util/SectionValidator.java:19-36 | a reply written in the required layout, with non-blank sections and a labelled header, parses and then validates |
| IntentDetector.CodeMarkersSpelled | src/main/java/com/vawk/chat/IntentDetector.java:31-37 | the code markers are exactly the six phrases anywhere in the text, or a text starting with `plan:` or `code:` |
| IntentDetector.ExplainMarkersSpelled | src/main/java/com/vawk/chat/IntentDetector.java:40-45 | the explanation markers are exactly the six phrases |
| IntentDetector.DetectIntent | src/main/java/com/vawk/chat/IntentDetector.java:24-51 | null or blank text is MIXED; otherwise CODE iff the lower-cased text holds a code marker, EXPLAIN iff it holds no code marker and an explanation marker (so CODE wins over EXPLAIN), MIXED otherwise |
| IntentDetector.LowerKeepsBlank | src/main/java/com/vawk/chat/IntentDetector.java:25-28 | lower-casing never makes a text blank or non-blank |
| IntentDetector.CaseInsensitive | src/main/java/com/vawk/chat/IntentDetector.java:28 | a message and its lower-cased form get the same intent |
| ChatService.TurnsOfConcat | src/main/java/com/vawk/chat/VawkChatService.java:107-124 | the turns of a concatenated ledger are those of each part, in order |
| ChatService.TurnsOfSnoc | src/main/java/com/vawk/chat/VawkChatService.java:118-124 | one more record adds its turn at the end when it is a turn record, nothing otherwise |
| ChatService.ScanFails | src/main/java/com/vawk/chat/VawkChatService.java:107-128 | the load loop succeeds iff no record has a foreign kind; otherwise it fails with "Unknown record kind: " and the kind of the first foreign record |
| ChatService.ScanContents | src/main/java/com/vawk/chat/VawkChatService.java:107-128 | on success the turns are the turn records in ledger order, and the meta is the last meta record (absent iff there is none) |
| ChatService.ScanMaxIdx | src/main/java/com/vawk/chat/VawkChatService.java:106-124 | on success the largest index is at least 0, bounds every turn index and is 0 or some turn's index |
| ChatService.ScanFailFirst | src/main/java/com/vawk/chat/VawkChatService.java:125-127 | once a record has failed the load, later records change nothing |
| ChatService.LoadedFacts | src/main/java/com/vawk/chat/VawkChatService.java:97-133 | `loadSession` succeeds iff the ledger exists, has no foreign kind and has a meta record; a missing ledger fails with "Session file not found: ", no meta with "Missing meta record in session: ", a foreign kind with "Unknown record kind: "; success gives the turns in order, the last meta record (which need not be first) and max index + 1 (1 with no turns) |
| ChatService.LoadAfterCreate | src/main/java/com/vawk/chat/VawkChatService.java:69-133 | a freshly created ledger loads as the session with no turns and next index 1, and a blank title is not kept |
| ChatService.LoadAfterAppend | src/main/java/com/vawk/chat/VawkChatService.java:97-238 | appending a turn record adds that turn at the end of the loaded history and moves the next index past it |
| ChatService.TrimHistory | src/main/java/com/vawk/chat/VawkChatService.java:215-221 | null gives no turns; otherwise the result is a suffix of the history of length min(size, 20) |
| ChatService.OccurrencesConcat | src/main/java/com/vawk/chat/VawkChatService.java:197-207 | line breaks in a concatenation add up |
| ChatService.TakeCount | src/main/java/com/vawk/chat/VawkChatService.java:200-207 | `truncate` takes at most 20 lines and never more than there are |
| ChatService.Truncate | src/main/java/com/vawk/chat/VawkChatService.java:193-213 | the line loop with its counter and builder returns exactly `Truncated(content)` |
| ChatService.TruncatedBounds | src/main/java/com/vawk/chat/VawkChatService.java:193-213 | the cut text of a document has at most 1000 chars and fewer than 20 line breaks (at most 20 lines) |
| ChatService.TruncatedShort | src/main/java/com/vawk/chat/VawkChatService.java:193-213 | a document under 1000 chars with at most 20 lines comes back only trimmed |
| ChatService.StackedBreaks | src/main/java/com/vawk/chat/VawkChatService.java:200-203 | lines without breaks, each followed by a break, hold one break per line |
| ChatService.NoOccurrences | src/main/java/com/vawk/chat/VawkChatService.java:200-203 | a text without the char has no occurrence of it |
| ChatService.SliceOccurrences | src/main/java/com/vawk/chat/VawkChatService.java:209-211 | cutting a text keeps no more breaks than it had |
| ChatService.TrimOccurrences | src/main/java/com/vawk/chat/VawkChatService.java:208 | trimming keeps no more breaks than the text had |
| ChatService.LinesHaveNoBreak | src/main/java/com/vawk/chat/VawkChatService.java:197 | no line that `split("\\R")` returns holds a break |
| ChatService.SplitAllCount | src/main/java/com/vawk/chat/VawkChatService.java:197 | a text splits into one more field than it has separators |
| ChatService.StackedConcat | src/main/java/com/vawk/chat/VawkChatService.java:200-203 | stacking lines distributes over concatenation |
| ChatService.StackedIsJoin | src/main/java/com/vawk/chat/VawkChatService.java:200-203 | the stacked lines are the lines joined by breaks plus one final break |
| ChatService.StackedEmpties | src/main/java/com/vawk/chat/VawkChatService.java:208 | empty lines stack up to nothing that survives a trim |
| ChatService.TakeAll | src/main/java/com/vawk/chat/VawkChatService.java:200-207 | with at most 20 lines and no prefix past 1000 chars, every line is taken |
| ChatService.StackedPrefixes | src/main/java/com/vawk/chat/VawkChatService.java:204 | no prefix of the lines stacks longer than all of them |
| ChatService.ShortLines | src/main/java/com/vawk/chat/VawkChatService.java:197-207 | a short document has at most 20 lines, all prefixes within the char limit, and its stacked lines are the text plus what trimming removes |
| ChatService.RetrievedDocsBound | src/main/java/com/vawk/chat/VawkChatService.java:175 | at most three documents are retrieved for a chat question |
| ChatService.RagContextEmptyIff | src/main/java/com/vawk/chat/VawkChatService.java:170-191 | the context is "" exactly when no document was retrieved (no repository, null or blank query, none found, or a failure); otherwise it starts with the `#` heading |
| ChatService.ConcatHas | src/main/java/com/vawk/chat/VawkChatService.java:183-186 | every block sits in the concatenated context |
| ChatService.DocBlocksNumbered | src/main/java/com/vawk/chat/VawkChatService.java:182-186 | document k appears in the context as block number k + 1 with its cut text |
| ChatService.DocBlocksSnoc | src/main/java/com/vawk/chat/VawkChatService.java:183-186 | one more document adds its numbered block at the end |
| ChatService.NumberedBlock | src/main/java/com/vawk/chat/VawkChatService.java:184-185 | builds the `## Doc n: title` heading and the cut text of one document |
| ChatService.StackDocs | src/main/java/com/vawk/chat/VawkChatService.java:182-186 | the loop with `docNum` returns the heading followed by the documents numbered from 1 in order |
| ChatService.PromptFor | src/main/java/com/vawk/chat/VawkChatService.java:161-162 | the messages sent for a question: the layered prompts, the retrieval context for it and the latest 20 turns |
| ChatService.Service.constructor | src/main/java/com/vawk/chat/VawkChatService.java:44-52 | the service starts with the given ledgers, oracle replies, client flag, builder and repository, and no call made |
| ChatService.Service.CreateSession | src/main/java/com/vawk/chat/VawkChatService.java:69-90 | the new ledger holds exactly the meta record, the title only when non-blank; nothing else changes |
| ChatService.Service.LoadSession | src/main/java/com/vawk/chat/VawkChatService.java:97-133 | the loop over the ledger returns exactly `Loaded(sessions, id)` |
| ChatService.Service.AppendTurn | src/main/java/com/vawk/chat/VawkChatService.java:223-238 | a missing ledger fails and changes nothing; otherwise exactly one turn record (model only when given) is added at the end and the message comes back unchanged |
| ChatService.Service.AppendUserTurn | src/main/java/com/vawk/chat/VawkChatService.java:140-142 | the same, with role user and no model |
| ChatService.Service.AppendAssistantTurn | src/main/java/com/vawk/chat/VawkChatService.java:149-151 | the same, with role assistant and the given model |
| ChatService.Service.BuildRagContext | src/main/java/com/vawk/chat/VawkChatService.java:170-191 | returns exactly `RagContext(...)` |
| ChatService.Service.GenerateAssistantReply | src/main/java/com/vawk/chat/VawkChatService.java:159-166 | without a client the reply is `[stub] ` + the message and no call is made; with one, a missing system prompt fails, otherwise exactly one call with `PromptFor(...)` is made and its answer returned; the ledger and the prompt caches do not change |
| ChatService.Service.Send | src/main/java/com/vawk/chat/VawkChatService.java:163 | one call to the chat model: it is recorded and consumes the next oracle answer |
| ChatPromptBuilder.ReplayedConcat | src/main/java/com/vawk/chat/VawkChatPromptBuilder.java:61-69 | history is replayed turn by turn in order: a concatenation replays each part |
| ChatPromptBuilder.ReplayedFaithful | src/main/java/com/vawk/chat/VawkChatPromptBuilder.java:62-68 | the replayed messages are the user and assistant turns of the history, in order, one each: message k carries the text of the k-th such turn as a user message for a user turn and an assistant message for an assistant turn; turns of any other role are dropped |
| ChatPromptBuilder.MessagesShape | src/main/java/com/vawk/chat/VawkChatPromptBuilder.java:47-72 | the first message is the system prompt and the last the new user message; the count is 1 + the non-blank developer/project/RAG layers + the spoken history turns (none for null history) + 1 |
| ChatPromptBuilder.PromptBuilder.constructor | src/main/java/com/vawk/chat/VawkChatPromptBuilder.java:21-23 | the builder keeps its loader |
| ChatPromptBuilder.PromptBuilder.BuildMessages | src/main/java/com/vawk/chat/VawkChatPromptBuilder.java:47-72 | fails only when the system prompt cannot be loaded; otherwise returns exactly `Messages(...)` over the cached layers; the caches keep their values |
| ChatPromptBuilder.PromptBuilder.LoadLayers | src/main/java/com/vawk/chat/VawkChatPromptBuilder.java:48-57 | the system message, then the developer and project layers only when non-blank |
| ChatPromptBuilder.PromptBuilder.ReplayHistory | src/main/java/com/vawk/chat/VawkChatPromptBuilder.java:61-69 | the history loop adds exactly `Replayed(turns)` after the layers |
| ChatPromptBuilder.PromptBuilder.BuildMessagesWithoutRag | src/main/java/com/vawk/chat/VawkChatPromptBuilder.java:32-34 | the two-argument overload is the three-argument one with a null RAG context |
| PromptLoader.FirstReadable | src/main/java/com/vawk/chat/VawkPromptLoader.java:93-121 | the lookup yields nothing exactly when no candidate source is readable |
| PromptLoader.ReadFileIsFirstReadable | src/main/java/com/vawk/chat/VawkPromptLoader.java:93-121 | `readFile` returns the first readable of: the override directory (only when set and not blank), `prompts/`, the class path |
| PromptLoader.ReadRequired | src/main/java/com/vawk/chat/VawkPromptLoader.java:58-64 | succeeds exactly when the file is found and not blank, returning its text; otherwise fails with "Missing required prompt: " + the file name |
| PromptLoader.ReadAgentsIsFirstReadable | src/main/java/com/vawk/chat/VawkPromptLoader.java:71-91 | with `user.dir` set, AGENTS.vawk.md wins over AGENTS.md, and "" when neither is readable |
| PromptLoader.Combine | src/main/java/com/vawk/chat/VawkPromptLoader.java:48-54 | empty exactly when both parts are empty; the agents text is a prefix and the project notes a suffix; the separator appears only when both are present |
| PromptLoader.Loader.constructor | src/main/java/com/vawk/chat/VawkPromptLoader.java:28-30 | all three caches start empty |
| PromptLoader.Loader.LoadSystemPrompt | src/main/java/com/vawk/chat/VawkPromptLoader.java:32-34 | returns the cached prompt, else reads the required file; caches only a success; the other caches are untouched |
| PromptLoader.Loader.LoadDeveloperPrompt | src/main/java/com/vawk/chat/VawkPromptLoader.java:36-38 | returns the cached prompt, else the optional file ("" when missing), and caches it |
| PromptLoader.Loader.LoadProjectPrompt | src/main/java/com/vawk/chat/VawkPromptLoader.java:40-56 | returns the cached prompt, else the agents text combined with the project file (or the example file when the project file is empty), and caches it |
| VawkAgents.RequestLeads | src/main/java/com/vawk/ai/VawkAgents.java:31-126 | every user prompt opens with the plan-first text and a newline; every system prompt opens with the plan-first text and the `Mode: <name>. ` line of the request's mode |
| VawkAgents.RagBlockIff | src/main/java/com/vawk/ai/VawkAgents.java:36-38 | the `RAG CONTEXT` block is appended to the prompt exactly when the retrieval text is neither null nor blank, and never touches the system prompt |
| VawkAgents.GuidanceIff | src/main/java/com/vawk/ai/VawkAgents.java:119-126 | the `GUIDANCE` block ends the system prompt exactly when the agents text is neither null nor blank |
| VawkAgents.ModeNamed | src/main/java/com/vawk/ai/VawkAgents.java:121 | a null mode is named SINGLE, and COT and SINGLE give different system prompts |
| VawkAgents.ExplainLintSingle | src/main/java/com/vawk/ai/VawkAgents.java:88-109 | explain and lint always use the SINGLE system prompt |
| VawkAgents.PromptHolds | src/main/java/com/vawk/ai/VawkAgents.java:31-109 | whatever the request text contains, the sent prompt contains |
| VawkAgents.SpecPromptQuotes | src/main/java/com/vawk/ai/VawkAgents.java:31-40 | the spec prompt quotes the description (`null` when absent) after `DESCRIPTION:` |
| VawkAgents.PlanPromptQuotes | src/main/java/com/vawk/ai/VawkAgents.java:45-54 | the plan prompt quotes the spec's YAML, or the serialisation-failure line when it cannot be written |
| VawkAgents.CodePromptQuotes | src/main/java/com/vawk/ai/VawkAgents.java:59-68 | the code prompt quotes the plan and the spec's YAML |
| VawkAgents.RefinePromptQuotes | src/main/java/com/vawk/ai/VawkAgents.java:73-83 | the refine prompt quotes the current spec's YAML, the fenced current program and the change request |
| VawkAgents.ReviewPromptQuotes | src/main/java/com/vawk/ai/VawkAgents.java:88-109 | the explain and lint prompts quote the fenced program after `CODE:` |
| SpecBuilder.HeuristicSpec | src/main/java/com/vawk/orchestration/VawkSpecBuilder.java:70-96 | the lists filled one `add` at a time equal the heuristic spec value |
| SpecBuilder.HeuristicShape | src/main/java/com/vawk/orchestration/VawkSpecBuilder.java:70-96 | the heuristic keeps the description; one input and one output; without guidance the single streaming constraint; with guidance the two fixed constraints and the `by_user` one exactly when the guidance mentions `by_user` |
| SpecBuilder.ParseSpec | src/main/java/com/vawk/orchestration/VawkSpecBuilder.java:62-68 | a null reply or null or blank CODE yields no spec |
| SpecBuilder.BuildFallsBack | src/main/java/com/vawk/orchestration/VawkSpecBuilder.java:46-60 | without agents, on a thrown call, a null reply, missing or blank CODE or unreadable YAML the heuristic spec is returned; otherwise the YAML's spec |
| SpecBuilder.BuildAsksCot | src/main/java/com/vawk/orchestration/VawkSpecBuilder.java:50 | the spec request uses the COT mode, and absent guidance is passed as "", which adds no guidance block |
| GeneratorService.Cut | src/main/java/com/vawk/orchestration/VawkGeneratorService.java:190-192 | the content is cut to its first 2000 characters: a prefix of length min(length, 2000) |
| GeneratorService.FormatRagEntry | src/main/java/com/vawk/orchestration/VawkGeneratorService.java:187-197 | the `## RAG: id (path)` heading then the cut content, or `<unavailable>` when the content cannot be read |
| GeneratorService.RunAutoTests | src/main/java/com/vawk/orchestration/VawkGeneratorService.java:159-169 | the steps of `runAutoTests` give exactly `AutoTests`, whose outcome `AutoTestsOutcome` states |
| GeneratorService.Drafted | src/main/java/com/vawk/orchestration/VawkGeneratorService.java:102-106 | a reply that gets through the plan request, the plan check and the code request has passed the structure check |
| GeneratorService.Generator.constructor | src/main/java/com/vawk/orchestration/VawkGeneratorService.java:55-75 | the service keeps its collaborators and working directory |
| GeneratorService.Generator.Generate | src/main/java/com/vawk/orchestration/VawkGeneratorService.java:95-134 | the result and the files afterwards are those of the `Generated` value, whose properties the lemmas below state |
| GeneratorService.Generator.Finish | src/main/java/com/vawk/orchestration/VawkGeneratorService.java:108-133 | writing the program, reading it back, auto-testing and logging give the `Finished` value |
| GeneratorService.FailureWritesNoProgram | src/main/java/com/vawk/orchestration/VawkGeneratorService.java:95-134 | a failed generation writes neither the program nor a log; the spec is either unchanged or the new spec |
| GeneratorService.PlanMissingStops | src/main/java/com/vawk/orchestration/VawkGeneratorService.java:151-155 | a null plan reply or a null or blank PLAN fails with "AI response missing PLAN section" after only the spec is written |
| GeneratorService.InvalidCodeStops | src/main/java/com/vawk/orchestration/VawkGeneratorService.java:105-106 | a code reply failing the structure check fails with the validator's message before the program or log is written |
| GeneratorService.GeneratedRecord | src/main/java/com/vawk/orchestration/VawkGeneratorService.java:108-133 | on success: the spec, `main.awk` holding the fence-stripped CODE, and one appended log with GEN, the mode, the chosen model, the reply's sections, both hashes, the requested tests, and test runs only with auto-test |
| GeneratorService.FinishedNamesModel | src/main/java/com/vawk/orchestration/VawkGeneratorService.java:119 | the model override changes only the model the log records |
| GeneratorService.AutoTestsOutcome | src/main/java/com/vawk/orchestration/VawkGeneratorService.java:159-169 | a thrown load or run gives one failed "auto" run with the message; no fixtures give no runs; otherwise one run per fixture in order, named after it |
| GeneratorService.RagEntryBounded | src/main/java/com/vawk/orchestration/VawkGeneratorService.java:187-197 | each entry opens with its heading and adds at most 2000 characters |
| GeneratorService.RagContextJoined | src/main/java/com/vawk/orchestration/VawkGeneratorService.java:173-185 | no repository or a thrown search gives ""; otherwise the formatted entries joined by a blank line, in the order found |
| GeneratorService.DocsSearchBounds | src/main/java/com/vawk/orchestration/VawkGeneratorService.java:178 | a null query finds nothing and a search returns at most three entries |
| RefinementService.BuildRagContext | src/main/java/com/vawk/orchestration/VawkRefinementService.java:155-174 | the loop appending one block per readable entry, then trimming, computes `RefineRagContext` |
| RefinementService.Reviewed | src/main/java/com/vawk/orchestration/VawkRefinementService.java:90-91 | a reply that gets through the refine request has passed the structure check |
| RefinementService.Refiner.constructor | src/main/java/com/vawk/orchestration/VawkRefinementService.java:52-72 | the service keeps its collaborators and working directory |
| RefinementService.Refiner.Refine | src/main/java/com/vawk/orchestration/VawkRefinementService.java:84-119 | the result and the files afterwards are those of the `Refined` value, whose properties the lemmas below state |
| RefinementService.Refiner.ReadSpecOrDefault | src/main/java/com/vawk/orchestration/VawkRefinementService.java:121-127 | the saved spec when it can be read, otherwise the builder's spec |
| RefinementService.Refiner.Revise | src/main/java/com/vawk/orchestration/VawkRefinementService.java:93-118 | writing the program, the spec and the log gives the `Revised` value |
| RefinementService.DescriptionNamesRequest | src/main/java/com/vawk/orchestration/VawkRefinementService.java:134-139 | the fallback description is never blank, opens with "Refine", and ends with a non-blank change request |
| RefinementService.BlocksConcat | src/main/java/com/vawk/orchestration/VawkRefinementService.java:162-169 | the context of two runs of entries is the context of each in turn |
| RefinementService.JoinedConcat | src/main/java/com/vawk/orchestration/VawkRefinementService.java:162-169 | appending per-entry blocks distributes over concatenation of the entry list |
| RefinementService.UnreadableOmitted | src/main/java/com/vawk/orchestration/VawkRefinementService.java:163-168 | an entry whose content cannot be read leaves no trace in the context |
| RefinementService.ReadableIncluded | src/main/java/com/vawk/orchestration/VawkRefinementService.java:163-166 | a readable entry adds its heading, its first 2000 characters and a blank line, in order after the entries before it |
| RefinementService.RagContextTrimmed | src/main/java/com/vawk/orchestration/VawkRefinementService.java:155-174 | the context is trimmed; without a repository or when the search throws it is "" |
| RefinementService.SavedSpecReused | src/main/java/com/vawk/orchestration/VawkRefinementService.java:121-127 | a readable saved spec is used whatever the builder would say; otherwise the builder gets the description made from the change request |
| RefinementService.MissingProgramStops | src/main/java/com/vawk/orchestration/VawkRefinementService.java:88 | without a readable `main.awk` the run fails with its path and writes nothing |
| RefinementService.InvalidReplyWritesNothing | src/main/java/com/vawk/orchestration/VawkRefinementService.java:90-91 | a thrown request or a reply failing the structure check ends the run with that error, writing nothing |
| RefinementService.FailureKeepsSpecAndLogs | src/main/java/com/vawk/orchestration/VawkRefinementService.java:84-119 | a failed refinement never changes the spec or the logs |
| RefinementService.RevisedFailure | src/main/java/com/vawk/orchestration/VawkRefinementService.java:93-98 | a spec that cannot be serialised fails after only the program is written |
| RefinementService.RefinedRecord | src/main/java/com/vawk/orchestration/VawkRefinementService.java:93-118 | on success: the spec worked on, `main.awk` holding the fence-stripped CODE, and one appended REFINE log with the chosen model, the reply's sections, both hashes, the requested tests, and runs of the "tests" fixtures only with auto-test |
| AwkTestRunner.RunTests | src/main/java/com/vawk/runtime/AwkTestRunner.java:46-68 | the loop over the cases computes `RunAll`: the results in case order, or the failure of the first case that throws |
| AwkTestRunner.PrefixFailure | src/main/java/com/vawk/runtime/AwkTestRunner.java:48-66 | once a case throws, the whole run fails with that failure, whatever follows |
| AwkTestRunner.RunAllPerCase | src/main/java/com/vawk/runtime/AwkTestRunner.java:46-68 | the run finishes exactly when no case throws, and then yields one result per case, each that case's own outcome, in order |
| AwkTestRunner.VerdictRule | src/main/java/com/vawk/runtime/AwkTestRunner.java:55-65 | a result is named after its case, passes exactly when the exit code is 0 and the trimmed expected and actual texts are equal, and carries a diff exactly when it fails |
| AwkTestRunner.OverrideIgnoresDefault | src/main/java/com/vawk/runtime/AwkTestRunner.java:49-54 | a case with an override runs the override file's text (with no hash) whatever the default program is |
| AwkTestRunner.TrailingOutputPadding | src/main/java/com/vawk/runtime/AwkTestRunner.java:60-72 | trailing whitespace in the program's output never changes the verdict |
| AwkTestRunner.NonZeroExitFails | src/main/java/com/vawk/runtime/AwkTestRunner.java:60-61 | a non-zero exit fails the case whatever it printed, and the result carries the diff |
| Repositories.AgentsGuidance | src/main/java/com/vawk/store/AgentsFileRepository.java:28-44 | no guidance exactly when neither AGENTS.md nor prompts/AGENTS.md exists; guidance read is AGENTS.md's text, or the fallback's only when AGENTS.md does not exist |
| Repositories.PrimaryShadowsFallback | src/main/java/com/vawk/store/AgentsFileRepository.java:36-44 | once AGENTS.md exists, the fallback file never affects the result |
| Repositories.SpecRead | src/main/java/com/vawk/store/SpecRepository.java:27-39 | the read succeeds exactly when a readable spec is saved, and returns it |
| Repositories.ProgramRead | src/main/java/com/vawk/store/ProgramRepository.java:25-41 | the read succeeds exactly when `main.awk` is there, returning its text with the hash of that text |
| Repositories.ProgramWriteRead | src/main/java/com/vawk/store/ProgramRepository.java:25-61 | a program read right after a write is the text written, hashed, whatever was there before |
| Repositories.Workspace.constructor | src/main/java/com/vawk/store/ProgramRepository.java:16-18 | no single Java counterpart: the workspace is the working directory shared by ProgramRepository (its fixed `main.awk`), SpecRepository (`spec.yaml`) and SessionLogRepository (the logs), and it starts holding exactly the given spec, program and logs |
| Repositories.Workspace.WriteSpec | src/main/java/com/vawk/store/SpecRepository.java:46-59 | the saved spec becomes the value written; nothing else changes |
| Repositories.Workspace.ReadSpec | src/main/java/com/vawk/store/SpecRepository.java:27-39 | the read gives `SpecRead` of the current files |
| Repositories.Workspace.WriteProgram | src/main/java/com/vawk/store/ProgramRepository.java:48-61 | `main.awk` becomes the text written; nothing else changes |
| Repositories.Workspace.ReadProgram | src/main/java/com/vawk/store/ProgramRepository.java:25-41 | the read gives `ProgramRead` of the current files |
| Repositories.Workspace.WriteLog | src/main/java/com/vawk/store/SessionLogRepository.java:34-49 | exactly one log is appended after the earlier ones; nothing else changes |
| TestRepository.FindTestcasesFile | src/main/java/com/vawk/store/TestRepository.java:52-62 | a testcases file is found exactly when `testcases.yaml` or `testcases.yml` exists, and the `.yaml` one wins |
| TestRepository.TextOf | src/main/java/com/vawk/store/TestRepository.java:76-79 | null only for a null node; a scalar gives its own text |
| TestRepository.VarsOf | src/main/java/com/vawk/store/TestRepository.java:80-86 | a `vars` value that is not a map gives no variables; a map succeeds exactly when no value is null, and then keeps every key with its value's text; a null value fails with the JVM's `NullPointerException` message |
| TestRepository.ReadFromYaml | src/main/java/com/vawk/store/TestRepository.java:64-97 | the loop over the `cases` entries computes `FromYaml`: the cases of the entries in order, or the first failure |
| TestRepository.ExtractBaseName | src/main/java/com/vawk/store/TestRepository.java:120-131 | a base exists exactly when the name is `input_` followed by at least one character, none of them a line terminator |
| TestRepository.ScanDirectory | src/main/java/com/vawk/store/TestRepository.java:99-118 | the loop over the listing computes `Scanned`, whose cases `ScannedCases` describes |
| TestRepository.Load | src/main/java/com/vawk/store/TestRepository.java:40-50 | the steps of `load` compute `Loaded`, whose choice of source `LoadSource` states |
| TestRepository.EntryFailureStops | src/main/java/com/vawk/store/TestRepository.java:72-95 | once an entry throws, the whole read fails with that failure |
| TestRepository.LoadSource | src/main/java/com/vawk/store/TestRepository.java:40-62 | a missing directory gives no cases; otherwise `testcases.yaml`, then `testcases.yml`, and the directory scan only when neither exists |
| TestRepository.CasesNotAList | src/main/java/com/vawk/store/TestRepository.java:66-69 | a `cases` value that is not a list gives no cases |
| TestRepository.EntryCaseRule | src/main/java/com/vawk/store/TestRepository.java:73-94 | an entry yields a case exactly when it is a map with non-null name, input and expected; paths resolve against the tests directory; an override exactly for a non-null `program`; the variables have the `vars` map's keys |
| TestRepository.NullVarFails | src/main/java/com/vawk/store/TestRepository.java:80-90 | a null `vars` value fails the whole read with the `NullPointerException` message, even in an entry that would be skipped |
| TestRepository.EntryCasesSucceed | src/main/java/com/vawk/store/TestRepository.java:72-96 | the read succeeds exactly when no entry throws, with at most one case per entry |
| TestRepository.EntryCasesInOrder | src/main/java/com/vawk/store/TestRepository.java:72-96 | when every entry yields a case, the read keeps them all, in order |
| TestRepository.ScannedCases | src/main/java/com/vawk/store/TestRepository.java:99-118 | each scanned case is named after the base of a listed file, reads that file, has an existing expected file (the `.txt` one when it exists, the `.csv` one otherwise), no variables and no override |
| TestRepository.ScanComplete | src/main/java/com/vawk/store/TestRepository.java:104-115 | every listed `input_` file that has a base and an existing `.txt` or `.csv` expected file yields a case with that base that reads it |
| TestRepository.LastDot | src/main/java/com/vawk/store/TestRepository.java:124 | in `base.ext` with a dot-free extension, the last dot is the one after the base |
| TestRepository.ExtractBaseNameOf | src/main/java/com/vawk/store/TestRepository.java:120-131 | `input_<base>.<ext>` gives `<base>` |
| TestRepository.ExtractBaseNameWithoutDot | src/main/java/com/vawk/store/TestRepository.java:120-131 | `input_<rest>` with a dot-free rest gives `<rest>` |
| RagRepository.SpaceRunEnd | src/main/java/com/vawk/store/RagRepository.java:26 | the regex `\s+` run: every char up to the end is a `\s` char and the next is not |
| RagRepository.NextOf | src/main/java/com/vawk/store/RagRepository.java:26 | the first `c` at or after the start, or the end of the line |
| RagRepository.LastPathGroup | src/main/java/com/vawk/store/RagRepository.java:26 | the greedy `(.*)` over the stretch its `.` can cover, which the match ends at the first line terminator after the spaces: the last start in that stretch at which `\(([^)]+)\)` matches, and none when it matches nowhere |
| RagRepository.FindFrom | src/main/java/com/vawk/store/RagRepository.java:111-112 | `Matcher.find`: no match means the pattern matches at no start |
| RagRepository.ParseLine | src/main/java/com/vawk/store/RagRepository.java:111-119 | a parsed entry has trimmed id and path, the index's group, and a path with no ".." and no leading '/' |
| RagRepository.IndexLineRoundTrip | src/main/java/com/vawk/store/RagRepository.java:111-115 | the index line written from a trimmed id without backticks, a trimmed description without line terminators and a parenthesis-free path matches with exactly those groups (the description keeping its trailing space) |
| RagRepository.TerminatorSkipsLine | src/main/java/com/vawk/store/RagRepository.java:26 | a line terminator such as U+2028 inside the description stops `(.*)` before the path group, so the index line of id `a`, description `x`, U+2028, `y` and path `p` gives no entry |
| RagRepository.IndexLineParses | src/main/java/com/vawk/store/RagRepository.java:111-119 | such a line with a safe path parses back to the entry it describes |
| RagRepository.IndexEntries | src/main/java/com/vawk/store/RagRepository.java:110-121 | an index yields at most one entry per line |
| RagRepository.ParseIndex | src/main/java/com/vawk/store/RagRepository.java:104-123 | the loop over the lines computes `ParsedIndex`: no entries for a missing index, an error for an unreadable one |
| RagRepository.ListAllEntries | src/main/java/com/vawk/store/RagRepository.java:43-50 | the snippet entries, then the book entries |
| RagRepository.NormalizeNames | src/main/java/com/vawk/store/RagRepository.java:97 | after normalising, every ".." comes before all other names, an absolute path has none, and no "." remains |
| RagRepository.ReadContent | src/main/java/com/vawk/store/RagRepository.java:90-102 | an escaping path fails with "RAG path escapes docs: " + the path before anything is read; content read is the text of the normalised target |
| RagRepository.StaysUnderBase | src/main/java/com/vawk/store/RagRepository.java:97-100 | a path that passes the check names a file under its base, with no ".." or "." after the base |
| RagRepository.PlainPathStaysInside | src/main/java/com/vawk/store/RagRepository.java:97-100 | a relative path without ".." always passes the check |
| RagRepository.IndexedPathsStayInside | src/main/java/com/vawk/store/RagRepository.java:116-119 | every entry an index yields passes the path check |
| RagRepository.AbsolutePathEscapes | src/main/java/com/vawk/store/RagRepository.java:97-100 | an absolute path is refused |
| RagRepository.ParentPathEscapes | src/main/java/com/vawk/store/RagRepository.java:97-100 | `../name` is refused unless the name leads straight back into `docs` |
| RagRepository.WordRunEnd | src/main/java/com/vawk/store/RagRepository.java:76 | the run of `\w` chars from a start: all word chars, followed by a non-word char or the end |
| RagRepository.TokensFrom | src/main/java/com/vawk/store/RagRepository.java:76 | every token of `split("\\W+")` kept by the scoring is a non-empty word |
| RagRepository.TokensFromShift | src/main/java/com/vawk/store/RagRepository.java:76 | tokenising looks only forward: text before the start changes nothing |
| RagRepository.TokensOfJoinedWords | src/main/java/com/vawk/store/RagRepository.java:76 | words joined by single spaces tokenise back into those words |
| RagRepository.TokensWord | src/main/java/com/vawk/store/RagRepository.java:76 | a single word is its only token |
| RagRepository.TokensWordSpace | src/main/java/com/vawk/store/RagRepository.java:76 | a word and a space in front add that word in front of the tokens |
| RagRepository.MatchCount | src/main/java/com/vawk/store/RagRepository.java:125-135 | the score is at most the number of tokens |
| RagRepository.ScoreEntry | src/main/java/com/vawk/store/RagRepository.java:125-135 | the scoring loop computes `Score`: one point per non-empty token found in the lower-cased id and description |
| RagRepository.MatchCountConcat | src/main/java/com/vawk/store/RagRepository.java:128-133 | the score of two token lists is the sum of their scores |
| RagRepository.RepeatedTokensCountTwice | src/main/java/com/vawk/store/RagRepository.java:128-133 | a repeated token counts each time it occurs |
| RagRepository.ScoreBounds | src/main/java/com/vawk/store/RagRepository.java:125-135 | the score is the number of tokens when all of them occur, and 0 when none does |
| RagRepository.InsertRankedFacts | src/main/java/com/vawk/store/RagRepository.java:78 | inserting into a descending list keeps it descending, adds exactly the element, and puts it after the equal scores |
| RagRepository.SortByScoreFacts | src/main/java/com/vawk/store/RagRepository.java:78 | the sort gives descending scores, is a permutation, and keeps entries of equal score in their original order |
| RagRepository.Relevant | src/main/java/com/vawk/store/RagRepository.java:72-83 | a null query finds nothing; a result never has more than `limit` entries |
| RagRepository.FindRelevant | src/main/java/com/vawk/store/RagRepository.java:72-83 | the steps of `findRelevant` compute `Relevant` |
| RagRepository.RankEntries | src/main/java/com/vawk/store/RagRepository.java:78 | the scoring loop pairs every entry, in order, with its score against the query's tokens, one pair per entry |
| RagRepository.RelevantIsTop | src/main/java/com/vawk/store/RagRepository.java:72-83 | the result is the first min(count, limit) entries of a stable, descending permutation of the scored entries, and nothing left out scores higher than anything kept |
| RagRepository.DocumentsFacts | src/main/java/com/vawk/store/RagRepository.java:57-65 | one document per entry, in order, titled by its description with its content; or the failure of one of the reads |
| RagRepository.DocumentsFailFirst | src/main/java/com/vawk/store/RagRepository.java:60-63 | once a read fails, later entries change nothing |
| RagRepository.DocumentsSnoc | src/main/java/com/vawk/store/RagRepository.java:60-63 | one more entry adds its document, or its read failure ends the search |
| RagRepository.SearchForChat | src/main/java/com/vawk/store/RagRepository.java:57-65 | the steps of `searchForChat` compute `Search`: the documents of the relevant entries |
| RagRepository.ReadDocuments | src/main/java/com/vawk/store/RagRepository.java:59-64 | the reading loop computes `Documents` |
| ChatCommand.MapReason | src/main/java/com/vawk/cli/ChatCommand.java:205-217 | the first matching rule on the lower-cased message picks one of four reasons: "awk header" gives the header reason; else a "missing plan/code/tests/notes" gives the missing-sections reason; else "missing" with "section" gives the incomplete reason; else the parse reason |
| ChatCommand.ValidatorReasons | src/main/java/com/vawk/cli/ChatCommand.java:195-217 | the validator's header message maps to the header reason and each missing-section message to the missing-sections reason |
| ChatCommand.HeaderMessageReason | src/main/java/com/vawk/cli/ChatCommand.java:207-208 | the missing-header message maps to the header reason |
| ChatCommand.PlanReason | src/main/java/com/vawk/cli/ChatCommand.java:210-211 | the missing-PLAN message maps to the missing-sections reason |
| ChatCommand.CodeReason | src/main/java/com/vawk/cli/ChatCommand.java:210-211 | the missing-CODE message maps to the missing-sections reason |
| ChatCommand.TestsReason | src/main/java/com/vawk/cli/ChatCommand.java:210-211 | the missing-TESTS message maps to the missing-sections reason |
| ChatCommand.NotesReason | src/main/java/com/vawk/cli/ChatCommand.java:210-211 | the missing-NOTES message maps to the missing-sections reason |
| ChatCommand.SectionMessageFacts | src/main/java/com/vawk/cli/ChatCommand.java:206-211 | a lower-cased missing-section message names the section after "missing " and never contains "awk header" |
| ChatCommand.ValidationError | src/main/java/com/vawk/cli/ChatCommand.java:191-203 | no reason exactly when the parsed reply validates; a reason is only ever the header or the missing-sections one, and the header one exactly for the header failure |
| ChatCommand.WrapOneShotMessage | src/main/java/com/vawk/cli/ChatCommand.java:232-241 | the wrapped message opens with `Task: ` and the message |
| ChatCommand.WrappedListsSections | src/main/java/com/vawk/cli/ChatCommand.java:232-241 | the wrapped message puts PLAN:, CODE:, TESTS: and NOTES: each on a line of its own, in that order |
| ChatCommand.LayoutListsSections | src/main/java/com/vawk/cli/ChatCommand.java:235-239 | the four-part layout puts each header on a line of its own, in order |
| ChatCommand.Command.constructor | src/main/java/com/vawk/cli/ChatCommand.java:20-40 | the command keeps its options and service; the policy is that of `ChatCommand` |
| ChatCommand.Command.Reply | src/main/java/com/vawk/cli/ChatCommand.java:90 | with a chat model but no system prompt the reply fails with the loader's error and nothing changes; otherwise the reply is the model's next answer, consuming it and recording the messages sent |
| ChatCommand.Command.AskModel | src/main/java/com/vawk/cli/ChatCommand.java:89-91 | the question at `n`, the reply, and the answer at `n + 1` give `Ask`: a missing ledger fails before any write, a missing system prompt after the question |
| ChatCommand.Command.HandleTurn | src/main/java/com/vawk/cli/ChatCommand.java:88-97 | an explanation turn gives `ExplainTurn`: one exchange, the history grown by its two turns, the next index by 2 |
| ChatCommand.Command.HandleCodeTurn | src/main/java/com/vawk/cli/ChatCommand.java:104-139 | a code turn gives `CodeTurn`: the wrapped message, and one correction round only when the first reply is not structured |
| ChatCommand.Command.CorrectCode | src/main/java/com/vawk/cli/ChatCommand.java:123-139 | the correction round of a code turn gives `CodeCorrection` |
| ChatCommand.Command.HandleOneShot | src/main/java/com/vawk/cli/ChatCommand.java:142-189 | a one-shot run gives `OneShot`: an explanation asked as is and exiting 0, or the code route |
| ChatCommand.Command.HandleOneShotCode | src/main/java/com/vawk/cli/ChatCommand.java:153-189 | the code route of a one-shot run gives `OneShotCode` |
| ChatCommand.Command.FinishOneShot | src/main/java/com/vawk/cli/ChatCommand.java:165-189 | after the first reply: exit 0 when it is structured, otherwise the correction round |
| ChatCommand.Command.CorrectOneShot | src/main/java/com/vawk/cli/ChatCommand.java:170-188 | the correction round exits 0 when the second reply is structured and 1 when it is not |
| ChatCommand.Command.ReadReplyLoop | src/main/java/com/vawk/cli/ChatCommand.java:60-80 | the loop over the input lines gives `Repl` |
| ChatCommand.Command.Call | src/main/java/com/vawk/cli/ChatCommand.java:42-81 | `call` gives `Run`: start or resume, then the one-shot message or the loop, which exits 0; a new session's id is kept as the command's session id |
| ChatProperties.LoopStopsAtQuit | src/main/java/com/vawk/cli/ChatCommand.java:66-68 | nothing after a line that trims to `:q` is ever read |
| ChatProperties.LoopSkipsBlank | src/main/java/com/vawk/cli/ChatCommand.java:69-71 | a line that trims to nothing changes nothing |
| ChatProperties.LoopKeeps | src/main/java/com/vawk/cli/ChatCommand.java:63-79 | whatever every successful turn preserves, the whole loop preserves |
| ChatProperties.ExtendsTrans | src/main/java/com/vawk/cli/ChatCommand.java:63-79 | carrying a session on is transitive |
| ChatProperties.ExtendsByExchange | src/main/java/com/vawk/cli/ChatCommand.java:93-96 | one exchange at the next index carries the session on by two turns |
| ChatProperties.TurnedAdvances | src/main/java/com/vawk/cli/ChatCommand.java:72-78 | a loop turn adds whole exchanges with consecutive indices, user and assistant alternating; the next index moves by 2, or by 4 exactly for a code request whose first reply is not structured; an explanation always by 2 |
| ChatProperties.CodeTurnAdvances | src/main/java/com/vawk/cli/ChatCommand.java:104-139 | a code turn moves the next index by 2, or by 4 exactly when the first reply is not structured |
| ChatProperties.AskLoads | src/main/java/com/vawk/cli/ChatCommand.java:89-91 | after an exchange the ledger loads with its two turns added and the next index past them |
| ChatProperties.TurnedKeepsSync | src/main/java/com/vawk/cli/ChatCommand.java:72-78 | a loop turn keeps the ledger in step with the session data |
| ChatProperties.ReplKeepsSync | src/main/java/com/vawk/cli/ChatCommand.java:60-80 | through the whole loop the ledger stays in step with the session data |
| ChatProperties.ReplAdvances | src/main/java/com/vawk/cli/ChatCommand.java:60-80 | through the whole loop the turns stay consecutive, alternating and in whole exchanges |
| ChatProperties.AskOk | src/main/java/com/vawk/cli/ChatCommand.java:89-91 | on an existing ledger with a usable configuration an exchange succeeds with the next answer and logs both turns |
| ChatProperties.OneShotLedger | src/main/java/com/vawk/cli/ChatCommand.java:142-189 | a one-shot run logs the question and reply at n and n+1, and the correction and second reply at n+2 and n+3 only for a code request whose first reply fails validation; it exits 1 exactly when the second reply fails too |
| ChatProperties.OneShotCalls | src/main/java/com/vawk/cli/ChatCommand.java:153-179 | with a chat model, one call per exchange: first with the session's history, then with the first exchange and the correction added |
| ChatProperties.OneShotFails | src/main/java/com/vawk/cli/ChatCommand.java:142-189 | a missing ledger fails before any write; a missing system prompt fails after logging only the question |
| ChatProperties.StartSynced | src/main/java/com/vawk/cli/ChatCommand.java:45-54 | a new session starts at index 1 with no turns and a ledger holding only its meta record; a resumed one is the ledger as loaded, failing as loading fails |
| ChatProperties.LoopPromptRepeatsMessage | src/main/java/com/vawk/cli/ChatCommand.java:109-113 | a loop code turn sends the wrapped message with a history already ending in it, so the model gets it twice as the last two messages |
| ChatProperties.MessagesRepeat | src/main/java/com/vawk/cli/ChatCommand.java:109-113 | the same for any retrieval context |
| ChatProperties.ReplayedEndsWithUser | src/main/java/com/vawk/cli/ChatCommand.java:110 | a history ending in a user turn replays as messages ending in that turn |
| PromoteCommand.DefaultName | src/main/java/com/vawk/cli/PromoteCommand.java:119-122 | the default job name starts with "job-", carries the first eight characters of a session id longer than eight, and ends with "-" and the turn index |
| PromoteCommand.JobName | src/main/java/com/vawk/cli/PromoteCommand.java:42 | the job name is `--name` when it is present and not blank, the default name otherwise, and never blank |
| PromoteCommand.DistinctTurnsDistinctNames | src/main/java/com/vawk/cli/PromoteCommand.java:119-122 | two different turn indexes of one session never get the same default name |
| PromoteCommand.SharedPrefixSharesName | src/main/java/com/vawk/cli/PromoteCommand.java:119-122 | two session ids that share their first eight characters give the same default name for the same turn |
| PromoteCommand.Examine | src/main/java/com/vawk/cli/PromoteCommand.java:96-112 | a blank line, or one without the turn kind or `"idx":`, is skipped; a match holds the turn kind and the assistant role, and its message starts right after the first `"msg":"`; a line throws only when no comma follows `"idx":` or the index text does not parse |
| PromoteCommand.FirstUnskipped | src/main/java/com/vawk/cli/PromoteCommand.java:96-98 | every line before the returned position is skipped, and the line at it, if any, is not |
| PromoteCommand.FirstUnskippedDecides | src/main/java/com/vawk/cli/PromoteCommand.java:94-117 | the lookup's answer is the message of the first line not skipped when that line matches, and nothing when it throws or every line is skipped; this holds for the message cut out as written and for the JSON reading alike |
| PromoteCommand.FindTurn | src/main/java/com/vawk/cli/PromoteCommand.java:94-117 | the loop over the store's lines returns, as written, the text from the first `"msg":"` of the first matching line to that line's last double quote, with `\n` and then `\"` undone, or nothing where the source throws |
| PromoteCommand.ReadEscaped | src/main/java/com/vawk/cli/PromoteCommand.java:105-111 | reading a message escaped the way the ledger writes it gives the message back exactly, whatever follows its closing quote |
| PromoteCommand.LedgerLineTaken | src/main/java/com/vawk/cli/PromoteCommand.java:96-106 | an assistant line written by the ledger is matched when its own index is asked for, with the message starting right after the message key |
| PromoteCommand.LedgerTurnFound | src/main/java/com/vawk/cli/PromoteCommand.java:94-117 | with the message read as a JSON string, the lookup returns exactly the message the ledger wrote for the requested assistant turn, with or without a model field |
| PromoteCommand.ModelFieldLeaks | src/main/java/com/vawk/cli/PromoteCommand.java:105-111 | as written, the message runs on to the last quote of the line, so a reply with a model, whose text and model have no backslash and no control character but the line break, comes back as the message, `","model":"` and the model |
| PromoteCommand.ModellessReplyAgrees | src/main/java/com/vawk/cli/PromoteCommand.java:105-111 | a reply logged without a model, with no backslash and no control character but the line break, is read back exactly, by the lookup as written and by the JSON reading alike |
| PromoteCommand.AsWrittenUndoes | src/main/java/com/vawk/cli/PromoteCommand.java:110 | the two replacements undo the ledger's escaping of text with no backslash and no control character but the line break |
| PromoteCommand.BackslashCorrupted | src/main/java/com/vawk/cli/PromoteCommand.java:110 | as written, a message holding a backslash and `n` comes back as a backslash and a line break, where the JSON reading gives it back unchanged |
| PromoteCommand.PromotableReply | src/main/java/com/vawk/cli/PromoteCommand.java:44-57 | a reply is promotable only if the session's store exists and reads, the turn is found by the lookup as written, and its sections pass the structure check with code present; a missing store gives nothing |
| PromoteCommand.Promotion | src/main/java/com/vawk/cli/PromoteCommand.java:59-87 | exit code 0 exactly when there is a promotable reply and the job name is free; then one job is added with the fence-stripped code as its script and the id, session, turn, plan and tests as its spec, and every other job is kept; on exit code 1 the jobs are unchanged |
| PromoteCommand.Promoter.constructor | src/main/java/com/vawk/cli/PromoteCommand.java:26-35 | the command starts over the given working files and jobs |
| PromoteCommand.Promoter.ReadReply | src/main/java/com/vawk/cli/PromoteCommand.java:44-57 | the steps up to the structure check yield the promotable reply of the session and turn |
| PromoteCommand.Promoter.Call | src/main/java/com/vawk/cli/PromoteCommand.java:40-92 | the exit code and the new jobs are those of the promotion for the reply found and the chosen job name |
| PromoteCommand.CheckedBeforeJobDir | src/main/java/com/vawk/cli/PromoteCommand.java:49-63 | a turn that cannot be promoted fails with 1 and leaves the jobs alone, whatever jobs exist |
| PromoteCommand.SecondPromotionRefused | src/main/java/com/vawk/cli/PromoteCommand.java:59-63 | promoting the same turn under the same name a second time fails and leaves the first job as it is |
| PromoteCommand.LedgerReplyPromoted | src/main/java/com/vawk/cli/PromoteCommand.java:44-57 | for an assistant reply the ledger wrote as the store's first line, with no backslash and no control character but the line break, the reply promoted is the message followed by the model field when there is one, exactly when that text passes the structure check |
| RunCommand.Split | src/main/java/com/vawk/cli/RunCommand.java:113-118 | an assignment is rejected exactly when it has no `=`, or its first `=` is its first character or its last; an accepted one is the name, `=` and the value, with a non-empty name free of `=` and a non-empty value |
| RunCommand.SplitJoin | src/main/java/com/vawk/cli/RunCommand.java:113-118 | `name=value` with a non-empty name free of `=` and a non-empty value splits back into that name and that value, whatever `=` the value holds |
| RunCommand.VarsLast | src/main/java/com/vawk/cli/RunCommand.java:112-120 | a list is rejected exactly when the list before its last assignment is, or that last assignment is malformed |
| RunCommand.PrefixRejected | src/main/java/com/vawk/cli/RunCommand.java:112-116 | once some prefix of the list is rejected, the whole list is |
| RunCommand.InvalidIffOneMalformed | src/main/java/com/vawk/cli/RunCommand.java:107-122 | the assignments are rejected exactly when at least one of them is malformed |
| RunCommand.LastAssignmentWins | src/main/java/com/vawk/cli/RunCommand.java:112-120 | in an accepted list every assignment sets its name, and a name keeps the value of its last assignment |
| RunCommand.OnlyAssignedNames | src/main/java/com/vawk/cli/RunCommand.java:107-122 | every variable of an accepted list was named by one of its assignments |
| RunCommand.ParseVarAssignments | src/main/java/com/vawk/cli/RunCommand.java:107-122 | the loop yields no variables when there is no `--var`, and otherwise the variables the assignments set, or nothing once one is malformed |
| RunCommand.Command.constructor | src/main/java/com/vawk/cli/RunCommand.java:58-66 | the command starts over the given tools and session logs |
| RunCommand.Command.Call | src/main/java/com/vawk/cli/RunCommand.java:72-105 | the result and the new session logs are those the command defines for the program path, the assignments and the input |
| RunCommand.MalformedStopsEarly | src/main/java/com/vawk/cli/RunCommand.java:74-78 | one malformed assignment ends the command with exit code 1 and no new log, whatever the program reader and the runner would do |
| RunCommand.ExitCodeIsTheRun | src/main/java/com/vawk/cli/RunCommand.java:80-104 | with valid assignments, a readable program and a run that completes, the exit code is the run's own and exactly one log is appended, recording "RUN", SINGLE, the program's hash and a spec hash exactly when `spec.yaml` exists |

## Left out

- File and process I/O. The file system is a map from paths to readable or unreadable text. A failing write or directory creation is not modelled, so every write succeeds.
- The chat model is a sequence of replies. Once the sequence is used up it answers "". A model call that throws is not modelled; the one failure the model keeps is a system prompt that cannot be loaded.
- JSON and YAML are records and already-parsed trees. A malformed ledger line, an unparsable `createdAt` and Jackson's lenient `asInt` and `asText` are not modelled. The YAML writer is a function that may fail, and the spec hash is SHA-256 of that writer's text.
- SHA-256, the unified diff writer, clocks, UUIDs and the working directory are parameters.
- `ensureBaseDirs` and `toAbsolutePath` are not modelled. Paths are their relative text.
- Regular expressions are written out as predicates:
  - the index-line pattern;
  - `^input_(.+)$`;
  - the `\W+` tokeniser.
- Java's `\R` is taken to be '\n'.
- Lower-casing and case-insensitive comparison cover ASCII letters only.
- `trim` removes every character up to U+0020.
- Java strings are UTF-16. Lengths here count Unicode scalar values. This affects the 1000- and 2000-character cuts, and surrogate code points are not modelled in `\u` escapes.
- Integers are unbounded. `Integer.parseInt` accepts only 32-bit values. Turn indexes in the ledger are not bounded.
- Printing to standard output and standard error is not modelled. Only exit codes, ledgers, logs and files are.
- The RUN log's timestamp and id are not modelled. `RunCommand.Command` takes the program reader and the awk runner as parameters.
- `promote`: these are not modelled:
  - the `promotedAt` timestamp;
  - the YAML text of `spec.yaml`, kept as a `JobSpec` record;
  - a job directory left half-written when a write fails.
- `readAllLines` is modelled as splitting at '\n'.
- PromoteCommand.LedgerReplyPromoted: stated for a reply and a model with no backslash and no control character but the line break. Other text is read back changed by the lookup as written; `BackslashCorrupted` shows one such case.
- PromoteCommand.LedgerLineTaken: stated for ledger lines whose timestamp has no letter `m`, as every ISO-8601 instant `Instant.toString` writes. A timestamp holding `"msg":"` could move the message key `findTurn` finds.
- `VawkGeneratorService.buildPrompt` (VawkGeneratorService.java:142-149) builds a string that `generate` never uses, so it is not modelled.
- AwkTestRunner: the branch that puts the run's standard error in place of a null diff (AwkTestRunner.java:62-64) cannot run, because `diff` never returns null. It is not modelled.
- The explain and lint services are not part of this model. They repeat the PLAN check and the model-override rule of the generator.
- Thin command wiring is not part of this model: `gen`, `refine`, `explain`, `lint`, `test`, the root command, the application class and `DirectoryService`.
- The backend selection between the Spring AI client and the local stub is a flag, `hasClient`.
- The loader's `AtomicReference` caches are plain fields. Nothing is concurrent.

## Findings

| source | as written | input that shows it | evidently intended | confidence | as-written member | corrected member |
|---|---|---|---|---|---|---|
| src/main/java/com/vawk/cli/PromoteCommand.java:105-111 | the message runs from `"msg":"` to the last double quote of the line | any assistant turn logged with a model, such as `{"kind":"turn",...,"msg":"hi","model":"m"}`, gives `hi","model":"m` | the message field alone, read as a JSON string | high, not executed | PromoteCommand.ModelFieldLeaks | PromoteCommand.LedgerTurnFound |
| src/main/java/com/vawk/cli/PromoteCommand.java:110 | `\n` is unescaped before `\\`, and `\\` is never unescaped | a reply holding backslash and `n` (as in awk's `printf "%s\n"`), logged as `\\n`, comes back as a backslash and a line break | every JSON escape decoded once, left to right | high, not executed | PromoteCommand.BackslashCorrupted | PromoteCommand.ReadEscaped |

The `promote` command itself (`FindTurn`, `PromotableReply`, `Promoter.ReadReply`, `Promoter.Call`) follows the code as written. The corrected lookup, which reads the message field as a JSON string, is `FindTurnIn`. `LedgerTurnFound` and `ReadEscaped` are proved about it, and `ModellessReplyAgrees` shows where the two readings agree.

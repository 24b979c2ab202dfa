/** The chat session service: an append-only NDJSON ledger per session
    (one meta record, then one record per turn), reloading a ledger, the
    history window and retrieval context handed to the model, and the reply
    of either the chat model or the stub. */
module ChatService {
  import opened Wrappers
  import opened JavaText
  import opened Domain
  import opened PromptLoader
  import opened ChatPromptBuilder
  import opened RagRepository

  /** How many of the latest turns the model sees. */
  const MAX_CONTEXT_TURNS: nat := 20
  const VERSION: Str := "0.2.0-SNAPSHOT"
  /** How many retrieved documents a chat question asks for. */
  const RAG_DOCS: nat := 3
  /** The per-document cut of the retrieval context. */
  const MAX_DOC_LINES: nat := 20
  const MAX_DOC_CHARS: nat := 1000

  const NOT_FOUND: Str := "Session file not found: "
  const UNKNOWN_KIND: Str := "Unknown record kind: "
  const MISSING_META: Str := "Missing meta record in session: "

  /** `VawkChatSession`: `createdAt` is the ISO-8601 UTC text of the
      instant and `cwd` the text of the working directory. */
  datatype Session = Session(sessionId: Str, createdAt: Str, cwd: Str, title: Option<Str>)

  /** One line of a session ledger, as the JSON reader sees it. A record of
      any kind other than `meta` and `turn` is `Foreign`; a blank line is
      `Blank`. */
  datatype Record =
    | Meta(sessionId: Str, createdAt: Str, cwd: Str, version: Str, title: Option<Str>)
    | TurnRecord(idx: int, ts: Str, role: Str, msg: Str, model: Option<Str>)
    | Foreign(kind: Str)
    | Blank

  /** `SessionData`: the session, its turns in ledger order, and the index
      the next turn gets. */
  datatype SessionData = SessionData(meta: Session, turns: seq<Turn>, nextIdx: int)

  /** Where a session's ledger lives. */
  function SessionFile(sessionId: Str): Str {
    ".vawk/chat/" + sessionId + ".vawk"
  }

  function Max(a: int, b: int): int {
    if a >= b then a else b
  }

  /** The meta record `createSession` writes: the title only when it is
      neither null nor blank. */
  function MetaRecord(sessionId: Str, createdAt: Str, cwd: Str, title: Option<Str>): Record {
    Meta(sessionId, createdAt, cwd, VERSION, if NullOrBlank(title) then None else title)
  }

  // ------------------------------------------------------ loading a ledger

  /** What `loadSession` has gathered after some lines: the latest meta,
      the turns, and the largest index seen (at least 0). */
  datatype Scanned = Scanned(meta: Option<Session>, turns: seq<Turn>, maxIdx: int)

  function SessionOf(rec: Record): Session
    requires rec.Meta?
  {
    Session(rec.sessionId, rec.createdAt, rec.cwd, rec.title)
  }

  function TurnOf(rec: Record): Turn
    requires rec.TurnRecord?
  {
    Turn(rec.idx, rec.role, rec.msg, rec.model)
  }

  /** One line of the loop: a blank line is skipped, a meta record replaces
      the meta seen so far, a turn is added, any other kind fails. */
  function Step(s: Scanned, rec: Record): Result<Scanned, Str> {
    match rec
    case Blank => Ok(s)
    case Meta(_, _, _, _, _) => Ok(s.(meta := Some(SessionOf(rec))))
    case TurnRecord(idx, _, _, _, _) => Ok(Scanned(s.meta, s.turns + [TurnOf(rec)], Max(s.maxIdx, idx)))
    case Foreign(kind) => Err(UNKNOWN_KIND + kind)
  }

  function Scan(records: seq<Record>): Result<Scanned, Str>
    decreases |records|
  {
    if records == [] then Ok(Scanned(None, [], 0))
    else
      match Scan(records[..|records| - 1])
      case Err(e) => Err(e)
      case Ok(s) => Step(s, records[|records| - 1])
  }

  /** `loadSession` over the ledgers `sessions`, by session id. */
  function Loaded(sessions: map<Str, seq<Record>>, sessionId: Str): Result<SessionData, Str> {
    if sessionId !in sessions then Err(NOT_FOUND + SessionFile(sessionId))
    else
      match Scan(sessions[sessionId])
      case Err(e) => Err(e)
      case Ok(s) =>
        if s.meta.None? then Err(MISSING_META + sessionId)
        else Ok(SessionData(s.meta.value, s.turns, s.maxIdx + 1))
  }

  /** The turn records of a ledger, in order, as turns. */
  function TurnsOf(records: seq<Record>): seq<Turn>
    decreases |records|
  {
    if records == [] then []
    else (if records[0].TurnRecord? then [TurnOf(records[0])] else []) + TurnsOf(records[1..])
  }

  predicate NoForeign(records: seq<Record>) {
    forall k | 0 <= k < |records| :: !records[k].Foreign?
  }

  predicate NoMeta(records: seq<Record>) {
    forall k | 0 <= k < |records| :: !records[k].Meta?
  }

  /** Record `j` is the last meta record of the ledger. */
  predicate LastMetaAt(records: seq<Record>, j: int) {
    0 <= j < |records| && records[j].Meta? && forall k | j < k < |records| :: !records[k].Meta?
  }

  /** `n` is one more than every turn index, and at least 1, and no larger
      than it must be. */
  predicate NextAfter(turns: seq<Turn>, n: int) {
    n >= 1
    && (forall k | 0 <= k < |turns| :: turns[k].idx < n)
    && (n == 1 || exists k | 0 <= k < |turns| :: turns[k].idx == n - 1)
  }

  lemma {:induction false} TurnsOfConcat(a: seq<Record>, b: seq<Record>)
    ensures TurnsOf(a + b) == TurnsOf(a) + TurnsOf(b)
    decreases |a|
  {
    if a != [] {
      assert (a + b)[1..] == a[1..] + b;
      TurnsOfConcat(a[1..], b);
    } else {
      assert a + b == b;
    }
  }

  lemma TurnsOfSnoc(a: seq<Record>, x: Record)
    ensures TurnsOf(a + [x]) == TurnsOf(a) + (if x.TurnRecord? then [TurnOf(x)] else [])
  {
    TurnsOfConcat(a, [x]);
    assert [x][1..] == [];
  }

  /** The loop fails exactly at the first record of a foreign kind. */
  lemma {:induction false} ScanFails(records: seq<Record>)
    ensures Scan(records).Ok? <==> NoForeign(records)
    ensures Scan(records).Err? ==>
      exists j | 0 <= j < |records| ::
        records[j].Foreign? && NoForeign(records[..j]) && Scan(records).error == UNKNOWN_KIND + records[j].kind
    decreases |records|
  {
    if records != [] {
      var front := records[..|records| - 1];
      ScanFails(front);
      assert forall k | 0 <= k < |front| :: front[k] == records[k];
      if Scan(front).Err? {
        var j :| 0 <= j < |front| && front[j].Foreign? && NoForeign(front[..j])
          && Scan(front).error == UNKNOWN_KIND + front[j].kind;
        assert records[..j] == front[..j];
      } else if records[|records| - 1].Foreign? {
        assert records[..|records| - 1] == front;
      }
    }
  }

  /** On success the turns are the ledger's turn records in order and the
      meta is the last meta record, or absent when there is none. */
  lemma {:induction false} ScanContents(records: seq<Record>)
    requires Scan(records).Ok?
    ensures Scan(records).value.turns == TurnsOf(records)
    ensures Scan(records).value.meta.None? <==> NoMeta(records)
    ensures Scan(records).value.meta.Some? ==>
      exists j :: LastMetaAt(records, j) && Scan(records).value.meta.value == SessionOf(records[j])
    decreases |records|
  {
    if records != [] {
      var n := |records| - 1;
      var front := records[..n];
      ScanContents(front);
      assert records == front + [records[n]];
      TurnsOfSnoc(front, records[n]);
      if !records[n].Meta? {
        var s := Scan(front).value;
        if s.meta.Some? {
          var j :| LastMetaAt(front, j) && s.meta.value == SessionOf(front[j]);
          assert LastMetaAt(records, j);
        }
      } else {
        assert LastMetaAt(records, n);
      }
    }
  }

  /** On success the largest index is at least 0, bounds every turn index,
      and is 0 or the index of some turn. */
  lemma {:induction false} ScanMaxIdx(records: seq<Record>)
    requires Scan(records).Ok?
    ensures var s := Scan(records).value;
      s.maxIdx >= 0 && NextAfter(s.turns, s.maxIdx + 1)
    decreases |records|
  {
    if records != [] {
      var n := |records| - 1;
      ScanMaxIdx(records[..n]);
      var s := Scan(records[..n]).value;
      if records[n].TurnRecord? {
        var t := s.turns + [TurnOf(records[n])];
        assert t[|s.turns|].idx == records[n].idx;
        assert forall k | 0 <= k < |s.turns| :: t[k] == s.turns[k];
      }
    }
  }

  /** Once the loop has failed, later lines change nothing. */
  lemma {:induction false} ScanFailFirst(records: seq<Record>, i: nat)
    requires i <= |records| && Scan(records[..i]).Err?
    ensures Scan(records) == Scan(records[..i])
    decreases |records| - i
  {
    if i < |records| {
      assert records[..i + 1][..i] == records[..i];
      ScanFailFirst(records, i + 1);
    } else {
      assert records[..i] == records;
    }
  }

  /** What `loadSession` promises: it fails on a missing ledger, on the
      first record of a foreign kind, and on a ledger without meta record;
      otherwise it returns the last meta record (which need not be first),
      the turn records in ledger order, and one more than the largest turn
      index (1 when there are none). */
  lemma LoadedFacts(sessions: map<Str, seq<Record>>, sessionId: Str)
    ensures var r := Loaded(sessions, sessionId);
      (r.Ok? <==> sessionId in sessions && NoForeign(sessions[sessionId]) && !NoMeta(sessions[sessionId]))
      && (sessionId !in sessions ==> r == Err(NOT_FOUND + SessionFile(sessionId)))
      && (sessionId in sessions && NoForeign(sessions[sessionId]) && NoMeta(sessions[sessionId]) ==>
            r == Err(MISSING_META + sessionId))
      && (sessionId in sessions && !NoForeign(sessions[sessionId]) ==>
            exists j | 0 <= j < |sessions[sessionId]| ::
              sessions[sessionId][j].Foreign? && r == Err(UNKNOWN_KIND + sessions[sessionId][j].kind))
      && (r.Ok? ==>
            r.value.turns == TurnsOf(sessions[sessionId])
            && (exists j :: LastMetaAt(sessions[sessionId], j) && r.value.meta == SessionOf(sessions[sessionId][j]))
            && NextAfter(r.value.turns, r.value.nextIdx))
  {
    if sessionId in sessions {
      var records := sessions[sessionId];
      ScanFails(records);
      if Scan(records).Ok? {
        ScanContents(records);
        ScanMaxIdx(records);
      }
    }
  }

  /** A freshly created ledger loads as the session, with no turns and
      next index 1; a blank title is not kept. */
  lemma LoadAfterCreate(sessions: map<Str, seq<Record>>, sessionId: Str, createdAt: Str, cwd: Str, title: Option<Str>)
    ensures Loaded(sessions[sessionId := [MetaRecord(sessionId, createdAt, cwd, title)]], sessionId)
         == Ok(SessionData(Session(sessionId, createdAt, cwd, if NullOrBlank(title) then None else title), [], 1))
  {
    var records := [MetaRecord(sessionId, createdAt, cwd, title)];
    assert records[..0] == [];
    assert Scan(records) == Step(Scanned(None, [], 0), records[0]);
    assert records[0].Meta? && SessionOf(records[0])
        == Session(sessionId, createdAt, cwd, if NullOrBlank(title) then None else title);
  }

  /** Appending a turn record adds that turn at the end of the loaded
      history and moves the next index past it. */
  lemma LoadAfterAppend(sessions: map<Str, seq<Record>>, sessionId: Str, rec: Record)
    requires rec.TurnRecord?
    requires Loaded(sessions, sessionId).Ok?
    ensures var d := Loaded(sessions, sessionId).value;
      Loaded(sessions[sessionId := sessions[sessionId] + [rec]], sessionId)
      == Ok(SessionData(d.meta, d.turns + [TurnOf(rec)], Max(d.nextIdx, rec.idx + 1)))
  {
    var records := sessions[sessionId] + [rec];
    assert records[..|records| - 1] == sessions[sessionId];
  }

  // ------------------------------------------------------ history window

  /** `trimHistory`: the latest `MAX_CONTEXT_TURNS` turns in order; null
      or empty history gives none. */
  function TrimHistory(history: Option<seq<Turn>>): (r: seq<Turn>)
    ensures history.None? ==> r == []
    ensures history.Some? ==>
      |r| == if |history.value| <= MAX_CONTEXT_TURNS then |history.value| else MAX_CONTEXT_TURNS
    ensures history.Some? ==> history.value == history.value[..|history.value| - |r|] + r
  {
    if history.None? || history.value == [] then []
    else
      var h := history.value;
      var start := Max(0, |h| - MAX_CONTEXT_TURNS);
      assert h == h[..start] + h[start..];
      h[start..]
  }

  // --------------------------------------------------- retrieval context

  /** How many times `c` occurs in `s`. */
  function Occurrences(s: Str, c: char): nat
    decreases |s|
  {
    if s == [] then 0 else (if s[0] == c then 1 else 0) + Occurrences(s[1..], c)
  }

  lemma {:induction false} OccurrencesConcat(a: Str, b: Str, c: char)
    ensures Occurrences(a + b, c) == Occurrences(a, c) + Occurrences(b, c)
    decreases |a|
  {
    if a != [] {
      assert (a + b)[1..] == a[1..] + b;
      OccurrencesConcat(a[1..], b, c);
    } else {
      assert a + b == b;
    }
  }

  /** The lines, each followed by a line break, as `truncate` appends them. */
  function Stacked(lines: seq<Str>): Str
    decreases |lines|
  {
    if lines == [] then [] else Stacked(lines[..|lines| - 1]) + lines[|lines| - 1] + [NL]
  }

  /** How many lines `truncate` takes, having taken `k`: it stops before a
      21st line and after the line that takes the text past 1000 chars. */
  function TakeCount(lines: seq<Str>, k: nat): (n: nat)
    requires k <= |lines| && k <= MAX_DOC_LINES
    ensures k <= n <= |lines| && n <= MAX_DOC_LINES
    decreases |lines| - k
  {
    if k == |lines| || k == MAX_DOC_LINES then k
    else if |Stacked(lines[..k + 1])| > MAX_DOC_CHARS then k + 1
    else TakeCount(lines, k + 1)
  }

  /** `truncate`: null reads as ""; otherwise the lines taken, trimmed, and
      cut to 1000 chars. */
  function Truncated(content: Option<Str>): Str {
    if content.None? then []
    else
      var lines := LinesNoTrailing(content.value);
      var kept := Trim(Stacked(lines[..TakeCount(lines, 0)]));
      if |kept| > MAX_DOC_CHARS then kept[..MAX_DOC_CHARS] else kept
  }

  /** `truncate` as the application runs it. */
  method Truncate(content: Option<Str>) returns (r: Str)
    ensures r == Truncated(content)
  {
    if content.None? {
      return [];
    }
    var lines := LinesNoTrailing(content.value);
    var truncated: Str := [];
    var count := 0;
    while count < |lines|
      invariant count <= |lines| && count <= MAX_DOC_LINES
      invariant truncated == Stacked(lines[..count])
      invariant TakeCount(lines, count) == TakeCount(lines, 0)
      decreases |lines| - count
    {
      if count >= MAX_DOC_LINES {
        break;
      }
      assert lines[..count + 1][..count] == lines[..count];
      truncated := truncated + lines[count] + [NL];
      count := count + 1;
      if |truncated| > MAX_DOC_CHARS {
        break;
      }
    }
    var trimmed := Trim(truncated);
    if |trimmed| > MAX_DOC_CHARS {
      return trimmed[..MAX_DOC_CHARS];
    }
    return trimmed;
  }

  /** A text of separator-free lines has one break per line. */
  lemma {:induction false} StackedBreaks(lines: seq<Str>)
    requires forall k | 0 <= k < |lines| :: NL !in lines[k]
    ensures Occurrences(Stacked(lines), NL) == |lines|
    decreases |lines|
  {
    if lines != [] {
      var n := |lines| - 1;
      StackedBreaks(lines[..n]);
      OccurrencesConcat(Stacked(lines[..n]) + lines[n], [NL], NL);
      OccurrencesConcat(Stacked(lines[..n]), lines[n], NL);
      NoOccurrences(lines[n], NL);
      assert [NL][1..] == [];
    }
  }

  lemma {:induction false} NoOccurrences(s: Str, c: char)
    requires c !in s
    ensures Occurrences(s, c) == 0
    decreases |s|
  {
    if s != [] {
      NoOccurrences(s[1..], c);
    }
  }

  /** Trimming and cutting keep no more breaks than they were given. */
  lemma SliceOccurrences(s: Str, i: nat, j: nat, c: char)
    requires i <= j <= |s|
    ensures Occurrences(s[i..j], c) <= Occurrences(s, c)
  {
    assert s == s[..i] + s[i..j] + s[j..];
    OccurrencesConcat(s[..i] + s[i..j], s[j..], c);
    OccurrencesConcat(s[..i], s[i..j], c);
  }

  lemma TrimOccurrences(s: Str, c: char)
    ensures Occurrences(Trim(s), c) <= Occurrences(s, c)
  {
    var pre, post := TrimDecompose(s);
    OccurrencesConcat(pre + Trim(s), post, c);
    OccurrencesConcat(pre, Trim(s), c);
  }

  /** The lines `truncate` reads never contain a break themselves. */
  lemma LinesHaveNoBreak(s: Str)
    ensures forall k | 0 <= k < |LinesNoTrailing(s)| :: NL !in LinesNoTrailing(s)[k]
  {
    SplitAllFields(s, NL);
  }

  /** The cut text of one document is at most 1000 chars and 20 lines
      (at most 19 line breaks). */
  lemma TruncatedBounds(content: Option<Str>)
    ensures |Truncated(content)| <= MAX_DOC_CHARS
    ensures Occurrences(Truncated(content), NL) < MAX_DOC_LINES
  {
    if content.Some? {
      var lines := LinesNoTrailing(content.value);
      var n := TakeCount(lines, 0);
      var taken := lines[..n];
      LinesHaveNoBreak(content.value);
      var kept := Trim(Stacked(taken));
      if n == 0 {
        TrimOccurrences(Stacked(taken), NL);
      } else {
        var front := Stacked(taken[..n - 1]) + taken[n - 1];
        assert Stacked(taken) == front + [NL];
        assert taken[..n - 1] == lines[..n - 1];
        StackedBreaks(taken[..n - 1]);
        OccurrencesConcat(Stacked(taken[..n - 1]), taken[n - 1], NL);
        NoOccurrences(taken[n - 1], NL);
        TrimAppendPad(front, [NL]);
        TrimOccurrences(front, NL);
      }
      if |kept| > MAX_DOC_CHARS {
        SliceOccurrences(kept, 0, MAX_DOC_CHARS, NL);
      }
    }
  }

  /** A text splits into one more field than it has separators. */
  lemma {:induction false} SplitAllCount(s: Str, c: char)
    ensures |SplitAll(s, c)| == Occurrences(s, c) + 1
    decreases |s|
  {
    if s != [] {
      SplitAllCount(s[1..], c);
    }
  }

  lemma {:induction false} StackedConcat(a: seq<Str>, b: seq<Str>)
    ensures Stacked(a + b) == Stacked(a) + Stacked(b)
    decreases |b|
  {
    if b == [] {
      assert a + b == a;
    } else {
      var n := |b| - 1;
      assert (a + b)[..|a + b| - 1] == a + b[..n];
      StackedConcat(a, b[..n]);
    }
  }

  /** Stacking lines is joining them with breaks, plus a final break. */
  lemma {:induction false} StackedIsJoin(lines: seq<Str>)
    requires |lines| >= 1
    ensures Stacked(lines) == Join(lines, [NL]) + [NL]
    decreases |lines|
  {
    var n := |lines| - 1;
    if n == 0 {
      assert lines[..0] == [];
    } else {
      var front := lines[..n];
      StackedIsJoin(front);
      JoinAppend(front, [lines[n]], [NL]);
      assert front + [lines[n]] == lines;
    }
  }

  /** Empty lines stack up to nothing but breaks. */
  lemma {:induction false} StackedEmpties(lines: seq<Str>)
    requires forall k | 0 <= k < |lines| :: lines[k] == []
    ensures forall k | 0 <= k < |Stacked(lines)| :: TrimmedAway(Stacked(lines)[k])
    decreases |lines|
  {
    if lines != [] {
      var n := |lines| - 1;
      StackedEmpties(lines[..n]);
      assert Stacked(lines) == Stacked(lines[..n]) + [NL];
    }
  }

  /** Once no prefix goes past the char limit, `truncate` takes every line
      (there being at most 20). */
  lemma {:induction false} TakeAll(lines: seq<Str>, k: nat)
    requires k <= |lines| <= MAX_DOC_LINES
    requires forall j | k < j <= |lines| :: |Stacked(lines[..j])| <= MAX_DOC_CHARS
    ensures TakeCount(lines, k) == |lines|
    decreases |lines| - k
  {
    if k < |lines| {
      TakeAll(lines, k + 1);
    }
  }

  /** No prefix of the lines stacks longer than all of them. */
  lemma StackedPrefixes(lines: seq<Str>)
    ensures forall j | 0 <= j <= |lines| :: |Stacked(lines[..j])| <= |Stacked(lines)|
  {
    forall j | 0 <= j <= |lines|
      ensures |Stacked(lines[..j])| <= |Stacked(lines)|
    {
      assert lines == lines[..j] + lines[j..];
      StackedConcat(lines[..j], lines[j..]);
    }
  }

  /** The lines of a short document: at most 20, every prefix of them
      stacks to at most 1000 chars, and the lines dropped as trailing
      empties add only breaks. */
  lemma ShortLines(content: Str) returns (rest: seq<Str>)
    requires |content| < MAX_DOC_CHARS && Occurrences(content, NL) < MAX_DOC_LINES
    ensures |LinesNoTrailing(content)| <= MAX_DOC_LINES
    ensures forall j | 0 < j <= |LinesNoTrailing(content)| ::
      |Stacked(LinesNoTrailing(content)[..j])| <= MAX_DOC_CHARS
    ensures Stacked(LinesNoTrailing(content)) + Stacked(rest) == content + [NL]
    ensures forall k | 0 <= k < |Stacked(rest)| :: TrimmedAway(Stacked(rest)[k])
  {
    var all := SplitAll(content, NL);
    var lines := LinesNoTrailing(content);
    SplitAllCount(content, NL);
    JoinSplitAll(content, NL);
    StackedIsJoin(all);
    if NL !in content {
      SplitAllNoSep(content, NL);
    }
    assert lines == all[..|lines|];
    rest := all[|lines|..];
    assert all == lines + rest;
    StackedConcat(lines, rest);
    StackedEmpties(rest);
    StackedPrefixes(lines);
  }

  /** A document of fewer than 1000 chars and at most 20 lines comes back
      only trimmed. */
  lemma TruncatedShort(content: Str)
    requires |content| < MAX_DOC_CHARS && Occurrences(content, NL) < MAX_DOC_LINES
    ensures Truncated(Some(content)) == Trim(content)
  {
    var lines := LinesNoTrailing(content);
    var rest := ShortLines(content);
    TakeAll(lines, 0);
    assert lines[..|lines|] == lines;
    TrimAppendPad(Stacked(lines), Stacked(rest));
    TrimAppendPad(content, [NL]);
    var pre, post := TrimDecompose(content);
  }

  /** `retrieval context header`. */
  const RAG_HEADER: Str :=
    "#" + " Reference context for this question\n\nBelow are a few relevant AWK references. Use them if helpful.\n\n"

  const DOC_MARK: Str := "## Doc "
  const TITLE_MARK: Str := ": "
  const DOC_END: Str := "\n\n"

  /** A numbered block: the heading line, the cut text, a blank line. */
  function Block(n: int, title: Str, text: Str): Str {
    DOC_MARK + IntToString(n) + TITLE_MARK + title + [NL] + text + DOC_END
  }

  /** One numbered document of the context. */
  function DocBlock(n: int, doc: RagDocument): Str {
    Block(n, doc.title, Truncated(Some(doc.content)))
  }

  /** Blocks of text laid end to end. */
  function Concat(blocks: seq<Str>): Str
    decreases |blocks|
  {
    if blocks == [] then [] else Concat(blocks[..|blocks| - 1]) + blocks[|blocks| - 1]
  }

  /** The block of each document, numbered from 1. */
  function DocBlockSeq(docs: seq<RagDocument>): seq<Str> {
    seq(|docs|, k requires 0 <= k < |docs| => DocBlock(k + 1, docs[k]))
  }

  /** The documents numbered from 1, in order. */
  function DocBlocks(docs: seq<RagDocument>): Str {
    Concat(DocBlockSeq(docs))
  }

  /** The retrieval repository as the service reaches it: its
      `searchForChat`, from a query and a limit to the documents found. */
  type Retriever = (Option<Str>, int) -> Result<seq<RagDocument>, Str>

  /** The repository over the documentation tree `fs`. */
  function Repository(fs: FileSystem): Retriever {
    (query, limit) => Search(fs, query, limit)
  }

  /** The documents a chat question retrieves, or none when the
      repository is absent, the question is null or blank, or retrieval
      fails. */
  function RetrievedDocs(rag: Option<Retriever>, query: Option<Str>): seq<RagDocument> {
    if rag.None? || NullOrBlank(query) then []
    else
      match rag.value(query, RAG_DOCS)
      case Err(_) => []
      case Ok(docs) => docs
  }

  /** `buildRagContext`. */
  function RagContext(header: Str, rag: Option<Retriever>, query: Option<Str>): Str {
    var docs := RetrievedDocs(rag, query);
    if docs == [] then [] else Trim(header + DocBlocks(docs))
  }

  lemma HeaderLead()
    ensures |RAG_HEADER| > 0 && RAG_HEADER[0] == '#'
  {
  }

  /** A text that starts with a significant char keeps it when trimmed. */
  lemma TrimKeepsLead(s: Str)
    requires s != [] && !TrimmedAway(s[0])
    ensures Trim(s) != [] && Trim(s)[0] == s[0]
  {
    assert TrimStart(s) == s;
    TrimEndFacts(s);
  }

  /** At most three documents are ever retrieved for a chat question. */
  lemma RetrievedDocsBound(fs: FileSystem, query: Option<Str>)
    ensures |RetrievedDocs(Some(Repository(fs)), query)| <= RAG_DOCS
  {
    if !NullOrBlank(query) {
      var found := Relevant(fs, query, RAG_DOCS);
      if found.Ok? {
        DocumentsFacts(fs, found.value);
      }
    }
  }

  /** The context is empty exactly when no document was retrieved;
      otherwise it opens with the header. */
  lemma RagContextEmptyIff(rag: Option<Retriever>, query: Option<Str>)
    ensures RagContext(RAG_HEADER, rag, query) == [] <==> RetrievedDocs(rag, query) == []
    ensures RetrievedDocs(rag, query) != [] ==> StartsWith(RagContext(RAG_HEADER, rag, query), "#")
  {
    var docs := RetrievedDocs(rag, query);
    if docs != [] {
      HeaderLead();
      var s := RAG_HEADER + DocBlocks(docs);
      assert s[0] == '#';
      TrimKeepsLead(s);
    }
  }

  /** Every block occurs in the concatenation, at position `i`. */
  lemma {:induction false} ConcatHas(blocks: seq<Str>, k: nat) returns (i: nat)
    requires k < |blocks|
    ensures IsAt(Concat(blocks), blocks[k], i)
    decreases |blocks|
  {
    var n := |blocks| - 1;
    var front := blocks[..n];
    if k == n {
      i := |Concat(front)|;
      assert Concat(blocks)[i..i + |blocks[k]|] == blocks[k];
    } else {
      i := ConcatHas(front, k);
      assert front[k] == blocks[k];
      assert Concat(blocks) == Concat(front) + blocks[n];
      assert Concat(blocks)[i..i + |blocks[k]|] == Concat(front)[i..i + |blocks[k]|];
    }
  }

  /** Document `k` appears in the context as block number `k + 1`, at
      position `i`. */
  lemma DocBlocksNumbered(docs: seq<RagDocument>, k: nat) returns (i: nat)
    requires k < |docs|
    ensures IsAt(DocBlocks(docs), DocBlock(k + 1, docs[k]), i)
  {
    i := ConcatHas(DocBlockSeq(docs), k);
  }

  lemma DocBlocksSnoc(docs: seq<RagDocument>, i: nat)
    requires i < |docs|
    ensures DocBlocks(docs[..i + 1]) == DocBlocks(docs[..i]) + DocBlock(i + 1, docs[i])
  {
    var blocks := DocBlockSeq(docs[..i + 1]);
    assert blocks[..|blocks| - 1] == DocBlockSeq(docs[..i]);
  }

  lemma AppendAssoc(a: Str, b: Str, c: Str)
    ensures a + b + c == a + (b + c)
  {
  }

  /** The numbered heading and the cut text of one document. */
  method NumberedBlock(n: int, doc: RagDocument) returns (block: Str)
    ensures block == DocBlock(n, doc)
  {
    var content := Truncate(Some(doc.content));
    block := Block(n, doc.title, content);
  }

  /** The loop of `buildRagContext` that numbers and cuts each document. */
  method StackDocs(header: Str, docs: seq<RagDocument>) returns (context: Str)
    ensures context == header + DocBlocks(docs)
  {
    context := header;
    var i := 0;
    while i < |docs|
      invariant 0 <= i <= |docs|
      invariant context == header + DocBlocks(docs[..i])
    {
      var block := NumberedBlock(i + 1, docs[i]);
      DocBlocksSnoc(docs, i);
      AppendAssoc(header, DocBlocks(docs[..i]), block);
      context := context + block;
      i := i + 1;
    }
    assert docs[..i] == docs;
  }

  /** The reply of the chat model `k` calls from now, or of the stub. */
  function ReplyAt(hasClient: bool, replies: seq<Str>, k: nat, message: Str): Str {
    if !hasClient then "[stub] " + message
    else if k < |replies| then replies[k]
    else []
  }

  /** The answers left after `k` calls to the chat model. */
  function Consumed(replies: seq<Str>, k: nat): seq<Str> {
    if k <= |replies| then replies[k..] else []
  }

  /** The messages sent to the chat model for `message` after `history`,
      given the three prompt layers and the retrieval repository. */
  function PromptFor(system: Str, developer: Str, project: Str, header: Str, rag: Option<Retriever>,
                     history: seq<Turn>, message: Str): seq<Message> {
    Messages(system, developer, project, Some(RagContext(header, rag, Some(message))),
             Some(TrimHistory(Some(history))), message)
  }

  /** `VawkChatService`. The chat model is an oracle: `replies` are the
      answers it will give, in order ("" once they run out), and `calls`
      records every message list sent to it. */
  class Service {
    /** The ledger of every session, by session id. */
    var sessions: map<Str, seq<Record>>
    var replies: seq<Str>
    var calls: seq<seq<Message>>
    const hasClient: bool
    const builder: PromptBuilder
    /** The retrieval repository, if there is one. */
    const rag: Option<Retriever>
    /** The heading of every retrieval context: always `RAG_HEADER`. */
    const contextHeader: Str

    constructor(sessions: map<Str, seq<Record>>, replies: seq<Str>, hasClient: bool,
                builder: PromptBuilder, rag: Option<Retriever>)
      ensures this.sessions == sessions && this.replies == replies && calls == []
      ensures this.hasClient == hasClient && this.builder == builder && this.rag == rag
      ensures contextHeader == RAG_HEADER
    {
      this.sessions := sessions;
      this.replies := replies;
      calls := [];
      this.hasClient := hasClient;
      this.builder := builder;
      this.rag := rag;
      contextHeader := RAG_HEADER;
    }

    /** The `k`-th reply from now to `message`. */
    function NextReply(k: nat, message: Str): Str
      reads this
    {
      ReplyAt(hasClient, replies, k, message)
    }

    /** Whether replying fails: only with a chat model, when the system
        prompt cannot be loaded. */
    predicate CannotReply()
      reads this, builder.loader
    {
      hasClient && builder.loader.NextSystemPrompt().Err?
    }

    /** `createSession`: the new ledger holds the meta record alone; the
        id, clock reading and working directory are given. */
    method CreateSession(title: Option<Str>, sessionId: Str, createdAt: Str, cwd: Str) returns (session: Session)
      modifies this
      ensures sessions == old(sessions)[sessionId := [MetaRecord(sessionId, createdAt, cwd, title)]]
      ensures session == Session(sessionId, createdAt, cwd, title)
      ensures replies == old(replies) && calls == old(calls)
    {
      var meta := Meta(sessionId, createdAt, cwd, VERSION, None);
      if title.Some? && !IsBlank(title.value) {
        meta := meta.(title := title);
      }
      sessions := sessions[sessionId := [meta]];
      session := Session(sessionId, createdAt, cwd, title);
    }

    /** `loadSession`. */
    method LoadSession(sessionId: Str) returns (r: Result<SessionData, Str>)
      ensures r == Loaded(sessions, sessionId)
    {
      if sessionId !in sessions {
        return Err(NOT_FOUND + SessionFile(sessionId));
      }
      var records := sessions[sessionId];
      var turns: seq<Turn> := [];
      var meta: Option<Session> := None;
      var maxTurnIndex := 0;
      var i := 0;
      while i < |records|
        invariant 0 <= i <= |records|
        invariant Scan(records[..i]) == Ok(Scanned(meta, turns, maxTurnIndex))
        decreases |records| - i
      {
        assert records[..i + 1][..i] == records[..i];
        match records[i] {
          case Blank =>
          case Meta(_, _, _, _, _) =>
            meta := Some(SessionOf(records[i]));
          case TurnRecord(idx, _, _, _, _) =>
            turns := turns + [TurnOf(records[i])];
            maxTurnIndex := Max(maxTurnIndex, idx);
          case Foreign(kind) =>
            ScanFailFirst(records, i + 1);
            return Err(UNKNOWN_KIND + kind);
        }
        i := i + 1;
      }
      assert records[..i] == records;
      if meta.None? {
        return Err(MISSING_META + sessionId);
      }
      return Ok(SessionData(meta.value, turns, maxTurnIndex + 1));
    }

    /** `appendTurn`: fails when the ledger does not exist; otherwise adds
        exactly one turn record at the end and returns the message. */
    method AppendTurn(sessionId: Str, turnIndex: int, role: Str, message: Str, model: Option<Str>, ts: Str)
      returns (r: Result<Str, Str>)
      modifies this
      ensures sessionId !in old(sessions) ==> r == Err(SessionFile(sessionId)) && sessions == old(sessions)
      ensures sessionId in old(sessions) ==>
        r == Ok(message)
        && sessions == old(sessions)[sessionId := old(sessions[sessionId]) + [TurnRecord(turnIndex, ts, role, message, model)]]
      ensures replies == old(replies) && calls == old(calls)
    {
      if sessionId !in sessions {
        return Err(SessionFile(sessionId));
      }
      sessions := sessions[sessionId := sessions[sessionId] + [TurnRecord(turnIndex, ts, role, message, model)]];
      return Ok(message);
    }

    /** `appendUserTurn`: a user turn carries no model name. */
    method AppendUserTurn(sessionId: Str, turnIndex: int, message: Str, ts: Str) returns (r: Result<Str, Str>)
      modifies this
      ensures sessionId !in old(sessions) ==> r == Err(SessionFile(sessionId)) && sessions == old(sessions)
      ensures sessionId in old(sessions) ==>
        r == Ok(message)
        && sessions == old(sessions)[sessionId := old(sessions[sessionId]) + [TurnRecord(turnIndex, ts, "user", message, None)]]
      ensures replies == old(replies) && calls == old(calls)
    {
      r := AppendTurn(sessionId, turnIndex, "user", message, None, ts);
    }

    /** `appendAssistantTurn`. */
    method AppendAssistantTurn(sessionId: Str, turnIndex: int, message: Str, model: Option<Str>, ts: Str)
      returns (r: Result<Str, Str>)
      modifies this
      ensures sessionId !in old(sessions) ==> r == Err(SessionFile(sessionId)) && sessions == old(sessions)
      ensures sessionId in old(sessions) ==>
        r == Ok(message)
        && sessions == old(sessions)[sessionId := old(sessions[sessionId]) + [TurnRecord(turnIndex, ts, "assistant", message, model)]]
      ensures replies == old(replies) && calls == old(calls)
    {
      r := AppendTurn(sessionId, turnIndex, "assistant", message, model, ts);
    }

    /** `buildRagContext`. */
    method BuildRagContext(query: Option<Str>) returns (r: Str)
      ensures r == RagContext(contextHeader, rag, query)
    {
      if rag.None? || query.None? || IsBlank(query.value) {
        return [];
      }
      var found := rag.value(query, RAG_DOCS);
      if found.Err? || found.value == [] {
        return [];
      }
      var context := StackDocs(contextHeader, found.value);
      return Trim(context);
    }

    /** `generateAssistantReply`: the stub echoes the message; the chat
        model is sent the layered prompts with the retrieval context for
        the message and the latest turns of the history. */
    method GenerateAssistantReply(history: seq<Turn>, userMessage: Str) returns (r: Result<Str, Str>)
      modifies this, builder.loader
      ensures !hasClient ==>
        r == Ok("[stub] " + userMessage) && replies == old(replies) && calls == old(calls)
      ensures hasClient && old(builder.loader.NextSystemPrompt()).Err? ==>
        r == Err(old(builder.loader.NextSystemPrompt()).error) && replies == old(replies) && calls == old(calls)
      ensures hasClient && old(builder.loader.NextSystemPrompt()).Ok? ==>
        r == Ok(old(NextReply(0, userMessage)))
        && replies == Consumed(old(replies), 1)
        && calls == old(calls) + [PromptFor(old(builder.loader.NextSystemPrompt()).value,
                                            old(builder.loader.NextDeveloperPrompt()),
                                            old(builder.loader.NextProjectPrompt()),
                                            contextHeader, rag, history, userMessage)]
      ensures sessions == old(sessions)
      ensures builder.loader.env == old(builder.loader.env)
      ensures builder.loader.NextSystemPrompt() == old(builder.loader.NextSystemPrompt())
      ensures builder.loader.NextDeveloperPrompt() == old(builder.loader.NextDeveloperPrompt())
      ensures builder.loader.NextProjectPrompt() == old(builder.loader.NextProjectPrompt())
    {
      if !hasClient {
        return Ok("[stub] " + userMessage);
      }
      var context := BuildRagContext(Some(userMessage));
      var messages := builder.BuildMessages(userMessage, Some(TrimHistory(Some(history))), Some(context));
      if messages.Err? {
        return Err(messages.error);
      }
      var reply := Send(messages.value);
      r := Ok(reply);
    }

    /** One call to the chat model: it is recorded, and the next answer
        is consumed. */
    method Send(messages: seq<Message>) returns (reply: Str)
      requires hasClient
      modifies this
      ensures reply == old(NextReply(0, []))
      ensures replies == Consumed(old(replies), 1)
      ensures calls == old(calls) + [messages]
      ensures sessions == old(sessions)
    {
      calls := calls + [messages];
      if replies == [] {
        return [];
      }
      reply := replies[0];
      replies := replies[1..];
    }
  }
}

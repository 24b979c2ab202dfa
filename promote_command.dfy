/** `vawk promote`: copies one assistant turn of a chat session into a new
    job directory `vawk/jobs/<name>` as `script.awk` plus `spec.yaml`. The
    turn is found by scanning the session's JSON-lines store for text
    markers rather than by reading the JSON. */
module PromoteCommand {
  import opened Wrappers
  import opened JavaText
  import opened Domain
  import opened SectionParser
  import opened SectionValidator

  // -------------------------------------------------------- job names

  const JOB_PREFIX: Str := "job-"
  const SHORT_ID: nat := 8

  /** The middle part of a default job name: the first eight characters
      of a longer session id, otherwise "job". */
  function ShortId(sessionId: Str): Str {
    if |sessionId| > SHORT_ID then sessionId[..SHORT_ID] else "job"
  }

  /** `defaultName`: "job-" + the short id + "-" + the turn index. */
  function DefaultName(sessionId: Str, turnIdx: int): (r: Str)
    ensures StartsWith(r, JOB_PREFIX)
    ensures |sessionId| > SHORT_ID ==> IsAt(r, sessionId[..SHORT_ID], |JOB_PREFIX|)
    ensures IsAt(r, "-" + IntToString(turnIdx), |r| - 1 - |IntToString(turnIdx)|)
  {
    var middle := ShortId(sessionId);
    var tail := "-" + IntToString(turnIdx);
    var r := JOB_PREFIX + middle + tail;
    assert r[..|JOB_PREFIX|] == JOB_PREFIX;
    assert r[|JOB_PREFIX|..|JOB_PREFIX| + |middle|] == middle;
    assert r[|r| - |tail|..] == tail;
    r
  }

  /** The job name `call` uses: `--name` unless it is absent or blank. */
  function JobName(name: Option<Str>, sessionId: Str, turnIdx: int): (r: Str)
    ensures !IsBlank(r)
    ensures !NullOrBlank(name) ==> r == name.value
    ensures NullOrBlank(name) ==> r == DefaultName(sessionId, turnIdx)
  {
    if NullOrBlank(name) then
      var d := DefaultName(sessionId, turnIdx);
      assert !IsWhitespace(d[0]);
      d
    else name.value
  }

  /** Two turns of one session never get the same default name. */
  lemma DistinctTurnsDistinctNames(sessionId: Str, i: int, j: int)
    requires InInt32(i) && InInt32(j) && i != j
    ensures DefaultName(sessionId, i) != DefaultName(sessionId, j)
  {
    var head := JOB_PREFIX + ShortId(sessionId) + "-";
    var a := IntToString(i);
    var b := IntToString(j);
    assert DefaultName(sessionId, i) == head + a;
    assert DefaultName(sessionId, j) == head + b;
    ParseIntToString(i);
    ParseIntToString(j);
    assert a != b;
    assert (head + a)[|head|..] == a;
    assert (head + b)[|head|..] == b;
  }

  /** Sessions whose ids share their first eight characters get the same
      default name for the same turn; the second promotion then stops at
      the existing job directory. */
  lemma SharedPrefixSharesName(a: Str, b: Str, turnIdx: int)
    requires |a| > SHORT_ID && |b| > SHORT_ID && a[..SHORT_ID] == b[..SHORT_ID]
    ensures DefaultName(a, turnIdx) == DefaultName(b, turnIdx)
  {
  }

  // ------------------------------------------------- JSON string text

  /** A hexadecimal digit as Jackson writes it (upper case). */
  function HexDigit(d: nat): (c: char)
    requires d < 16
    ensures IsHex(c) && HexValue(c) == d
  {
    if d < 10 then ('0' as int + d) as char else ('A' as int + d - 10) as char
  }

  predicate IsHex(c: char) {
    '0' <= c <= '9' || 'a' <= c <= 'f' || 'A' <= c <= 'F'
  }

  function HexValue(c: char): (v: nat)
    requires IsHex(c)
    ensures v < 16
  {
    if '0' <= c <= '9' then c as int - '0' as int
    else if 'a' <= c <= 'f' then c as int - 'a' as int + 10
    else c as int - 'A' as int + 10
  }

  /** The escape Jackson writes for one character of a string value:
      quote and backslash are backslashed, the five common control
      characters get their short forms, every other character below
      U+0020 becomes `\u00XX`, and the rest is written as is. */
  function EscapeChar(c: char): Str {
    if c == '"' then "\\\""
    else if c == '\\' then "\\\\"
    else if c == '\n' then "\\n"
    else if c == '\r' then "\\r"
    else if c == '\t' then "\\t"
    else if c == '\U{8}' then "\\b"
    else if c == '\U{C}' then "\\f"
    else if c < ' ' then "\\u00" + [HexDigit(c as int / 16), HexDigit(c as int % 16)]
    else [c]
  }

  /** The body of a JSON string value, without its quotes. */
  function Escape(s: Str): Str
    decreases |s|
  {
    if s == [] then [] else EscapeChar(s[0]) + Escape(s[1..])
  }

  /** A string value with its quotes. */
  function Quoted(s: Str): Str {
    "\"" + Escape(s) + "\""
  }

  /** The character a short escape `\c` stands for. */
  function ShortEscape(c: char): Option<char> {
    if c == '"' then Some('"')
    else if c == '\\' then Some('\\')
    else if c == '/' then Some('/')
    else if c == 'b' then Some('\U{8}')
    else if c == 'f' then Some('\U{C}')
    else if c == 'n' then Some('\n')
    else if c == 'r' then Some('\r')
    else if c == 't' then Some('\t')
    else None
  }

  /** The code point four hex digits spell. */
  function Hex4(s: Str): nat
    requires |s| == 4 && IsHex(s[0]) && IsHex(s[1]) && IsHex(s[2]) && IsHex(s[3])
  {
    ((HexValue(s[0]) * 16 + HexValue(s[1])) * 16 + HexValue(s[2])) * 16 + HexValue(s[3])
  }

  predicate UnicodeEscapeAt(s: Str) {
    |s| >= 6 && s[0] == '\\' && s[1] == 'u' && IsHex(s[2]) && IsHex(s[3]) && IsHex(s[4]) && IsHex(s[5])
    && (Hex4(s[2..6]) < 0xD800 || 0xE000 <= Hex4(s[2..6]))
  }

  function Prepend(c: char, rest: Option<Str>): Option<Str> {
    if rest.Some? then Some([c] + rest.value) else None
  }

  /** A JSON string value read from just after its opening quote up to
      its closing quote, every escape decoded; `None` when the closing
      quote is missing or an escape is malformed. What follows the
      closing quote is not looked at. */
  function ReadJsonString(s: Str): (r: Option<Str>)
    decreases |s|
  {
    if s == [] then None
    else if s[0] == '"' then Some([])
    else if s[0] != '\\' then Prepend(s[0], ReadJsonString(s[1..]))
    else if |s| >= 2 && ShortEscape(s[1]).Some? then Prepend(ShortEscape(s[1]).value, ReadJsonString(s[2..]))
    else if UnicodeEscapeAt(s) then Prepend(Hex4(s[2..6]) as char, ReadJsonString(s[6..]))
    else None
  }

  /** A two-character escape reads as the character it stands for. */
  lemma ReadShort(e: char, c: char, rest: Str)
    requires ShortEscape(e) == Some(c)
    ensures ReadJsonString(['\\', e] + rest) == Prepend(c, ReadJsonString(rest))
  {
    assert (['\\', e] + rest)[2..] == rest;
  }

  /** A `\u00XX` escape reads as the control character it spells. */
  lemma ReadUnicode(c: char, rest: Str)
    requires c < ' '
    ensures ReadJsonString("\\u00" + [HexDigit(c as int / 16), HexDigit(c as int % 16)] + rest)
            == Prepend(c, ReadJsonString(rest))
  {
    var s := "\\u00" + [HexDigit(c as int / 16), HexDigit(c as int % 16)] + rest;
    assert s[2..6] == ['0', '0', HexDigit(c as int / 16), HexDigit(c as int % 16)];
    assert Hex4(s[2..6]) == c as int;
    assert s[6..] == rest;
  }

  /** A character written as it is reads as itself. */
  lemma ReadVerbatim(c: char, rest: Str)
    requires c != '"' && c != '\\'
    ensures ReadJsonString([c] + rest) == Prepend(c, ReadJsonString(rest))
  {
    assert ([c] + rest)[1..] == rest;
  }

  /** Reading one escaped character gives the character back. */
  lemma ReadEscapedChar(c: char, rest: Str)
    ensures ReadJsonString(EscapeChar(c) + rest) == Prepend(c, ReadJsonString(rest))
  {
    if c == '"' {
      ReadShort('"', c, rest);
    } else if c == '\\' {
      ReadShort('\\', c, rest);
    } else if c == '\n' {
      ReadShort('n', c, rest);
    } else if c == '\r' {
      ReadShort('r', c, rest);
    } else if c == '\t' {
      ReadShort('t', c, rest);
    } else if c == '\U{8}' {
      ReadShort('b', c, rest);
    } else if c == '\U{C}' {
      ReadShort('f', c, rest);
    } else if c < ' ' {
      ReadUnicode(c, rest);
    } else {
      ReadVerbatim(c, rest);
    }
  }

  /** The corrected reader reads back every message the ledger writes,
      whatever follows its closing quote (the `model` field, the brace). */
  lemma {:induction false} ReadEscaped(msg: Str, rest: Str)
    ensures ReadJsonString(Escape(msg) + "\"" + rest) == Some(msg)
    decreases |msg|
  {
    if msg == [] {
      assert Escape(msg) + "\"" + rest == "\"" + rest;
    } else {
      ReadEscaped(msg[1..], rest);
      assert Escape(msg) + "\"" + rest == EscapeChar(msg[0]) + (Escape(msg[1..]) + "\"" + rest);
      ReadEscapedChar(msg[0], Escape(msg[1..]) + "\"" + rest);
      assert [msg[0]] + msg[1..] == msg;
    }
  }

  // ------------------------------------------------ scanning the store

  const KIND_TURN: Str := "\"kind\":\"turn\""
  const IDX_KEY: Str := "\"idx\":"
  const ROLE_ASSISTANT: Str := "\"role\":\"assistant\""
  const MSG_KEY: Str := "\"msg\":\""
  const QUOTE: Str := "\""
  const ESCAPED_NEWLINE: Str := "\\n"
  const ESCAPED_QUOTE: Str := "\\\""

  /** The fixed text of a turn line: the opening up to the index
      value, then the separators in front of the timestamp, the role, the
      message and the model. */
  const TURN_OPEN: Str := "{\"kind\":\"turn\",\"idx\":"
  const TS_FIELD: Str := ",\"ts\":\""
  const ROLE_FIELD: Str := "\",\"role\":\""
  const FIELD_END: Str := "\","
  const MODEL_FIELD: Str := ",\"model\":\""

  /** Everything `VawkChatService.appendTurn` writes before the message
      field: the fields in insertion order, compact JSON. */
  function LinePrefix(idx: int, ts: Str, role: Str): Str {
    TURN_OPEN + IntToString(idx) + TS_FIELD + Escape(ts) + ROLE_FIELD + Escape(role) + FIELD_END
  }

  /** The `model` field, written only when there is one. */
  function ModelTail(model: Option<Str>): Str {
    if model.Some? then MODEL_FIELD + Escape(model.value) + QUOTE else ""
  }

  /** The line `VawkChatService.appendTurn` writes for one turn. */
  function TurnLine(idx: int, ts: Str, role: Str, msg: Str, model: Option<Str>): Str {
    LinePrefix(idx, ts, role) + MSG_KEY + Escape(msg) + QUOTE + ModelTail(model) + "}"
  }

  /** What `findTurn` makes of one line: move on, throw (no comma after
      `"idx":`, or an index that does not parse), or take the message
      that starts at `msgStart`. */
  datatype LineOutcome = Skip | Throws | Match(msgStart: nat)

  /** The selection `findTurn` applies to one line. */
  function Examine(line: Str, target: int): (r: LineOutcome)
    ensures IsBlank(line) || !Contains(line, KIND_TURN) || !Contains(line, IDX_KEY) ==> r.Skip?
    ensures r.Match? ==>
      Contains(line, KIND_TURN) && Contains(line, ROLE_ASSISTANT)
      && r.msgStart == IndexOf(line, MSG_KEY) + |MSG_KEY| <= |line|
    ensures r.Throws? ==>
      var start := IndexOf(line, IDX_KEY) + |IDX_KEY|;
      start <= |line|
      && (IndexOfFrom(line, ",", start) == -1 || ParseInt(line[start..IndexOfFrom(line, ",", start)]).None?)
  {
    if IsBlank(line) || !Contains(line, KIND_TURN) then Skip
    else
      var idxPos := IndexOf(line, IDX_KEY);
      if idxPos < 0 then Skip
      else
        var start := idxPos + |IDX_KEY|;
        var end := IndexOfFrom(line, ",", start);
        if end < 0 then Throws
        else
          match ParseInt(line[start..end])
          case None => Throws
          case Some(idx) =>
            if idx == target && Contains(line, ROLE_ASSISTANT) then
              var msgPos := IndexOf(line, MSG_KEY);
              if msgPos < 0 then Skip else Match(msgPos + |MSG_KEY|)
            else Skip
  }

  /** The message as `findTurn` extracts it: from `msgStart` to the last
      double quote on the line, then `\n` and `\"` unescaped, in that
      order; `None` where `substring` throws. */
  function MessageAsWritten(line: Str, msgStart: nat): Option<Str> {
    var msgEnd := LastIndexOf(line, QUOTE);
    if msgEnd < msgStart || msgStart > |line| then None
    else Some(Replace(Replace(line[msgStart..msgEnd], ESCAPED_NEWLINE, "\n"), ESCAPED_QUOTE, QUOTE))
  }

  /** The message read as the JSON string it is. */
  function Message(line: Str, msgStart: nat): Option<Str> {
    if msgStart > |line| then None else ReadJsonString(line[msgStart..])
  }

  /** `findTurn` as written: the first matching line's message; `None`
      where it throws, including when no line matches. */
  function FindTurnAsWritten(lines: seq<Str>, target: int): Option<Str>
    decreases |lines|
  {
    if lines == [] then None
    else match Examine(lines[0], target)
      case Skip => FindTurnAsWritten(lines[1..], target)
      case Throws => None
      case Match(msgStart) => MessageAsWritten(lines[0], msgStart)
  }

  /** `findTurn` with the message read as a JSON string. */
  function FindTurnIn(lines: seq<Str>, target: int): Option<Str>
    decreases |lines|
  {
    if lines == [] then None
    else match Examine(lines[0], target)
      case Skip => FindTurnIn(lines[1..], target)
      case Throws => None
      case Match(msgStart) => Message(lines[0], msgStart)
  }

  /** `findTurn`: one pass over the store's lines that stops at the first
      line it can take or that throws, and cuts the message out of the
      line as the source does. */
  method FindTurn(lines: seq<Str>, target: int) returns (msg: Option<Str>)
    ensures msg == FindTurnAsWritten(lines, target)
  {
    var i := 0;
    while i < |lines|
      invariant 0 <= i <= |lines|
      invariant FindTurnAsWritten(lines[i..], target) == FindTurnAsWritten(lines, target)
    {
      var outcome := Examine(lines[i], target);
      if outcome.Throws? {
        return None;
      }
      if outcome.Match? {
        msg := MessageAsWritten(lines[i], outcome.msgStart);
        return;
      }
      assert lines[i..][1..] == lines[i + 1..];
      i := i + 1;
    }
    return None;
  }

  /** The index of the first line `findTurn` does not skip, or the
      number of lines when it skips them all. */
  function FirstUnskipped(lines: seq<Str>, target: int): (k: nat)
    ensures k <= |lines|
    ensures forall j | 0 <= j < k :: Examine(lines[j], target).Skip?
    ensures k < |lines| ==> !Examine(lines[k], target).Skip?
    decreases |lines|
  {
    if lines == [] || !Examine(lines[0], target).Skip? then 0
    else
      var k := 1 + FirstUnskipped(lines[1..], target);
      assert forall j | 1 <= j < k :: lines[j] == lines[1..][j - 1];
      k
  }

  /** The turn found is the message of the first line not skipped, when
      that line is a match: a line that throws, or running out of lines,
      ends the search with nothing. This holds for the message cut out as
      written and for the message read as a JSON string alike. */
  lemma {:induction false} FirstUnskippedDecides(lines: seq<Str>, target: int)
    ensures var k := FirstUnskipped(lines, target);
      FindTurnAsWritten(lines, target) ==
        if k < |lines| && Examine(lines[k], target).Match? then MessageAsWritten(lines[k], Examine(lines[k], target).msgStart)
        else None
    ensures var k := FirstUnskipped(lines, target);
      FindTurnIn(lines, target) ==
        if k < |lines| && Examine(lines[k], target).Match? then Message(lines[k], Examine(lines[k], target).msgStart)
        else None
    decreases |lines|
  {
    if lines != [] && Examine(lines[0], target).Skip? {
      FirstUnskippedDecides(lines[1..], target);
      var k := FirstUnskipped(lines[1..], target);
      if k < |lines[1..]| {
        assert lines[1..][k] == lines[k + 1];
      }
    }
  }

  // ------------------------------------------- the ledger's own lines

  const ASSISTANT: Str := "assistant"

  /** Text Jackson writes as it is: no quote, backslash or control
      character. */
  predicate Plain(s: Str) {
    forall k | 0 <= k < |s| :: ' ' <= s[k] && s[k] != '"' && s[k] != '\\'
  }

  lemma {:induction false} EscapePlain(s: Str)
    requires Plain(s)
    ensures Escape(s) == s
    decreases |s|
  {
    if s != [] {
      EscapePlain(s[1..]);
      assert [s[0]] + s[1..] == s;
    }
  }

  /** Escaping adds no letter `m`: escapes use backslash, `bfnrtu` and
      hex digits. */
  lemma {:induction false} EscapeAddsNoM(s: Str)
    requires 'm' !in s
    ensures 'm' !in Escape(s)
    decreases |s|
  {
    if s != [] {
      assert s[0] in s;
      assert s[1..] <= s[1..];
      assert forall c | c in s[1..] :: c in s;
      EscapeAddsNoM(s[1..]);
    }
  }

  /** No occurrence of `p` starts before `k` when the character `p[j]`
      does not occur in the first `k + j` characters. */
  lemma NoneBefore(s: Str, p: Str, k: nat, j: nat)
    requires j < |p| && k + j <= |s| && p[j] !in s[..k + j]
    ensures forall i | 0 <= i < k :: !IsAt(s, p, i)
  {
    forall i | 0 <= i < k
      ensures !IsAt(s, p, i)
    {
      assert s[i + j] == s[..k + j][i + j];
    }
  }

  lemma FirstAt(s: Str, p: Str, k: nat)
    requires IsAt(s, p, k) && forall i | 0 <= i < k :: !IsAt(s, p, i)
    ensures IndexOf(s, p) == k
  {
    assert Contains(s, p);
  }

  lemma FirstAtFrom(s: Str, p: Str, from: nat, k: nat)
    requires from <= k && IsAt(s, p, k) && forall i | from <= i < k :: !IsAt(s, p, i)
    ensures IndexOfFrom(s, p, from) == k
  {
  }

  /** `Integer.toString` writes a minus sign and digits only. */
  lemma NumberChars(i: int)
    ensures forall c | c in IntToString(i) :: c == '-' || IsDigit(c)
  {
    var d := NatToString(if i < 0 then -i else i);
    assert forall k | 0 <= k < |d| :: IsDigit(d[k]);
  }

  /** `p` found inside the middle piece is found in the whole. */
  lemma AtShift(x: Str, y: Str, z: Str, p: Str, i: nat)
    requires IsAt(y, p, i)
    ensures IsAt(x + y + z, p, |x| + i)
  {
    assert (x + y + z)[|x| + i..|x| + i + |p|] == y[i..i + |p|];
  }

  /** Where the markers sit in the opening of a turn line. */
  lemma OpeningText()
    ensures IsAt(TURN_OPEN, KIND_TURN, 1)
    ensures IsAt(TURN_OPEN, IDX_KEY, |TURN_OPEN| - |IDX_KEY|)
    ensures IDX_KEY[3] !in TURN_OPEN[..|TURN_OPEN| - |IDX_KEY| + 3]
    ensures !IsWhitespace(TURN_OPEN[0])
  {
    assert TURN_OPEN[1..1 + |KIND_TURN|] == KIND_TURN;
    assert TURN_OPEN[|TURN_OPEN| - |IDX_KEY|..] == IDX_KEY;
  }

  /** What sits in a prefix sits in the whole. */
  lemma PrefixAt(line: Str, open: Str, p: Str, i: nat)
    requires |open| <= |line| && line[..|open|] == open && IsAt(open, p, i)
    ensures IsAt(line, p, i)
  {
    assert line[i..i + |p|] == open[i..i + |p|];
  }

  /** A character missing from the start of a prefix is missing from the
      start of the whole. */
  lemma PrefixLacks(line: Str, open: Str, c: char, k: nat)
    requires k <= |open| <= |line| && line[..|open|] == open && c !in open[..k]
    ensures c !in line[..k]
  {
    assert line[..k] == open[..k];
  }

  /** A line that opens like a turn line is not blank, holds the kind
      marker and has its first `"idx":` where the opening puts it. */
  lemma OpeningFound(line: Str)
    requires |TURN_OPEN| <= |line| && line[..|TURN_OPEN|] == TURN_OPEN
    ensures !IsBlank(line) && Contains(line, KIND_TURN)
    ensures IndexOf(line, IDX_KEY) == |TURN_OPEN| - |IDX_KEY|
  {
    OpeningText();
    var k := |TURN_OPEN| - |IDX_KEY|;
    assert line[0] == TURN_OPEN[0];
    PrefixAt(line, TURN_OPEN, KIND_TURN, 1);
    PrefixAt(line, TURN_OPEN, IDX_KEY, k);
    PrefixLacks(line, TURN_OPEN, IDX_KEY[3], k + 3);
    NoneBefore(line, IDX_KEY, k, 3);
    FirstAt(line, IDX_KEY, k);
  }

  /** A number without commas followed by a comma runs to that comma. */
  lemma NumberAt(line: Str, start: nat, n: Str)
    requires start + |n| < |line| && line[start..start + |n|] == n && line[start + |n|] == ','
    requires ',' !in n
    ensures IndexOfFrom(line, ",", start) == start + |n|
    ensures line[start..IndexOfFrom(line, ",", start)] == n
  {
    assert line[start + |n|..start + |n| + 1] == ",";
    forall i | start <= i < start + |n|
      ensures !IsAt(line, ",", i)
    {
      assert line[i] == n[i - start];
    }
    FirstAtFrom(line, ",", start, start + |n|);
  }

  /** The first `"msg":"` of a line is one with no letter `m` before it. */
  lemma MsgKeyAt(line: Str, k: nat)
    requires IsAt(line, MSG_KEY, k) && 'm' !in line[..k + 1]
    ensures IndexOf(line, MSG_KEY) == k
  {
    NoneBefore(line, MSG_KEY, k, 1);
    FirstAt(line, MSG_KEY, k);
  }

  /** `findTurn` takes a line once each of its searches comes out as
      given. */
  lemma ExamineMatch(line: Str, target: int, idxPos: nat, end: nat, msgPos: nat)
    requires !IsBlank(line) && Contains(line, KIND_TURN) && Contains(line, ROLE_ASSISTANT)
    requires IndexOf(line, IDX_KEY) == idxPos && idxPos + |IDX_KEY| <= end
    requires IndexOfFrom(line, ",", idxPos + |IDX_KEY|) == end
    requires ParseInt(line[idxPos + |IDX_KEY|..end]) == Some(target)
    requires IndexOf(line, MSG_KEY) == msgPos
    ensures Examine(line, target) == Match(msgPos + |MSG_KEY|)
  {
  }

  /** How `findTurn` treats a line laid out like an assistant turn line. */
  lemma LaidOutTaken(line: Str, idx: int, n: Str, rolePos: nat, msgPos: nat)
    requires |TURN_OPEN| + |n| < |line| && line[..|TURN_OPEN|] == TURN_OPEN
    requires line[|TURN_OPEN|..|TURN_OPEN| + |n|] == n && line[|TURN_OPEN| + |n|] == ','
    requires ',' !in n && ParseInt(n) == Some(idx)
    requires IsAt(line, ROLE_ASSISTANT, rolePos)
    requires IsAt(line, MSG_KEY, msgPos) && 'm' !in line[..msgPos]
    ensures Examine(line, idx) == Match(msgPos + |MSG_KEY|)
  {
    OpeningFound(line);
    MsgKeyOpensClear(line, msgPos);
    var idxPos := |TURN_OPEN| - |IDX_KEY|;
    assert idxPos + |IDX_KEY| == |TURN_OPEN|;
    NumberTaken(line, idx, n, idxPos, rolePos, msgPos);
  }

  /** The `"msg":"` key opens with a quote, not with `m`. */
  lemma MsgKeyOpensClear(line: Str, msgPos: nat)
    requires IsAt(line, MSG_KEY, msgPos) && 'm' !in line[..msgPos]
    ensures 'm' !in line[..msgPos + 1]
  {
    assert line[msgPos] == MSG_KEY[0];
    assert line[..msgPos + 1] == line[..msgPos] + [line[msgPos]];
  }

  /** How `findTurn` treats a line whose first `"idx":` sits at `idxPos`
      and is followed by the index number `n` and a comma. */
  lemma NumberTaken(line: Str, idx: int, n: Str, idxPos: nat, rolePos: nat, msgPos: nat)
    requires !IsBlank(line) && Contains(line, KIND_TURN) && IndexOf(line, IDX_KEY) == idxPos
    requires idxPos + |IDX_KEY| + |n| < |line| && line[idxPos + |IDX_KEY|..idxPos + |IDX_KEY| + |n|] == n
    requires line[idxPos + |IDX_KEY| + |n|] == ','
    requires ',' !in n && ParseInt(n) == Some(idx)
    requires IsAt(line, ROLE_ASSISTANT, rolePos)
    requires IsAt(line, MSG_KEY, msgPos) && 'm' !in line[..msgPos + 1]
    ensures Examine(line, idx) == Match(msgPos + |MSG_KEY|)
  {
    var start := idxPos + |IDX_KEY|;
    NumberAt(line, start, n);
    MsgKeyAt(line, msgPos);
    assert Contains(line, ROLE_ASSISTANT) by {
      assert IsAt(line, ROLE_ASSISTANT, rolePos);
    }
    ExamineMatch(line, idx, idxPos, start + |n|, msgPos);
  }

  lemma AssistantPlain()
    ensures Escape(ASSISTANT) == ASSISTANT
  {
    EscapePlain(ASSISTANT);
  }

  /** The index text has no comma and reads back as the index. */
  lemma NumberReads(idx: int)
    requires InInt32(idx)
    ensures ',' !in IntToString(idx) && ParseInt(IntToString(idx)) == Some(idx)
  {
    NumberWithout(idx, ',');
    ParseIntToString(idx);
  }

  /** The role field of an assistant line holds the role marker. */
  lemma RoleMarker()
    ensures IsAt(ROLE_FIELD + ASSISTANT + FIELD_END, ROLE_ASSISTANT, 2)
  {
    assert (ROLE_FIELD + ASSISTANT + FIELD_END)[2..2 + |ROLE_ASSISTANT|] == ROLE_ASSISTANT;
  }

  /** The prefix of an assistant line has no letter `m` when its
      timestamp has none. */
  lemma PrefixWithoutM(idx: int, ts: Str)
    requires 'm' !in ts
    ensures 'm' !in LinePrefix(idx, ts, ASSISTANT)
  {
    NumberWithout(idx, 'm');
    EscapeAddsNoM(ts);
    AssistantPlain();
    FixedTextWithoutM();
    var n := IntToString(idx);
    assert LinePrefix(idx, ts, ASSISTANT) == TURN_OPEN + n + TS_FIELD + Escape(ts) + ROLE_FIELD + ASSISTANT + FIELD_END;
  }

  lemma FixedTextWithoutM()
    ensures 'm' !in TURN_OPEN && 'm' !in TS_FIELD && 'm' !in ROLE_FIELD && 'm' !in FIELD_END && 'm' !in ASSISTANT
  {
  }

  lemma NumberWithout(idx: int, c: char)
    requires c != '-' && !IsDigit(c)
    ensures c !in IntToString(idx)
  {
    NumberChars(idx);
  }

  /** Where the pieces of a line `a + n + b + t + c + key + body` sit,
      when `b` opens with a comma and `role` sits at `i` in `c`. */
  lemma Pieces(a: Str, n: Str, b: Str, t: Str, c: Str, key: Str, body: Str, role: Str, i: nat) returns (rolePos: nat)
    requires |b| > 0 && b[0] == ',' && IsAt(c, role, i)
    ensures var prefix := a + n + b + t + c;
      var line := prefix + key + body;
      |a| + |n| < |line| && line[..|a|] == a
      && line[|a|..|a| + |n|] == n && line[|a| + |n|] == ','
      && IsAt(line, role, rolePos)
      && IsAt(line, key, |prefix|) && line[..|prefix|] == prefix
  {
    var x := a + n + b + t;
    var prefix := x + c;
    var line := prefix + key + body;
    assert line[..|a|] == a;
    assert line[|a|..|a| + |n|] == n;
    assert line[|a| + |n|] == b[0];
    AtShift(x, c, key + body, role, i);
    assert x + c + (key + body) == line;
    rolePos := |x| + i;
    AtShift(prefix, key, body, key, 0);
  }

  lemma TsFieldOpens()
    ensures |TS_FIELD| > 0 && TS_FIELD[0] == ','
  {
  }

  /** Where the pieces of an assistant turn line sit, for any index
      text `n`, escaped timestamp `t`, escaped message `m` and model
      field `tail`. */
  lemma Layout(n: Str, t: Str, m: Str, tail: Str) returns (rolePos: nat)
    ensures var prefix := TURN_OPEN + n + TS_FIELD + t + ROLE_FIELD + ASSISTANT + FIELD_END;
      var line := prefix + MSG_KEY + m + QUOTE + tail + "}";
      |TURN_OPEN| + |n| < |line| && line[..|TURN_OPEN|] == TURN_OPEN
      && line[|TURN_OPEN|..|TURN_OPEN| + |n|] == n && line[|TURN_OPEN| + |n|] == ','
      && IsAt(line, ROLE_ASSISTANT, rolePos)
      && IsAt(line, MSG_KEY, |prefix|) && line[..|prefix|] == prefix
  {
    var c := ROLE_FIELD + ASSISTANT + FIELD_END;
    RoleMarker();
    TsFieldOpens();
    rolePos := Pieces(TURN_OPEN, n, TS_FIELD, t, c, MSG_KEY, m + QUOTE + tail + "}", ROLE_ASSISTANT, 2);
    assert TURN_OPEN + n + TS_FIELD + t + c == TURN_OPEN + n + TS_FIELD + t + ROLE_FIELD + ASSISTANT + FIELD_END;
    assert TURN_OPEN + n + TS_FIELD + t + c + MSG_KEY + (m + QUOTE + tail + "}")
        == TURN_OPEN + n + TS_FIELD + t + ROLE_FIELD + ASSISTANT + FIELD_END + MSG_KEY + m + QUOTE + tail + "}";
  }

  /** An assistant line the ledger writes is taken by `findTurn` when
      asked for its own index, and the message starts right after
      `"msg":"`, whatever the message and model are. The timestamp is
      assumed free of the letter `m`, as an ISO-8601 instant is. */
  lemma LedgerLineTaken(idx: int, ts: Str, msg: Str, model: Option<Str>)
    requires InInt32(idx) && 'm' !in ts
    ensures Examine(TurnLine(idx, ts, ASSISTANT, msg, model), idx)
            == Match(|LinePrefix(idx, ts, ASSISTANT)| + |MSG_KEY|)
  {
    var line := TurnLine(idx, ts, ASSISTANT, msg, model);
    var n := IntToString(idx);
    AssistantPlain();
    var rolePos := Layout(n, Escape(ts), Escape(msg), ModelTail(model));
    NumberReads(idx);
    PrefixWithoutM(idx, ts);
    LaidOutTaken(line, idx, n, rolePos, |LinePrefix(idx, ts, ASSISTANT)|);
  }

  /** The text after the message key of a turn line is the escaped
      message, its closing quote and the rest of the line. */
  lemma AfterKey(p: Str, m: Str, tail: Str)
    ensures (p + MSG_KEY + m + QUOTE + tail + "}")[|p| + |MSG_KEY|..] == m + QUOTE + (tail + "}")
  {
  }

  /** The last quote of a line that ends in `"}`. */
  lemma LastQuote(line: Str)
    requires |line| >= 2 && line[|line| - 2] == '"' && line[|line| - 1] == '}'
    ensures LastIndexOf(line, QUOTE) == |line| - 2
  {
    assert line[|line| - 2..|line| - 1] == QUOTE;
    assert IsAt(line, QUOTE, |line| - 2);
    assert Contains(line, QUOTE);
    assert !IsAt(line, QUOTE, |line| - 1);
  }

  /** As written, the message of a line ending in `"}` is everything from
      its start up to that last quote, with the two replacements applied. */
  lemma UpToLastQuote(p: Str, body: Str)
    ensures MessageAsWritten(p + body + "\"}", |p|)
            == Some(Replace(Replace(body, ESCAPED_NEWLINE, "\n"), ESCAPED_QUOTE, QUOTE))
  {
    var line := p + body + "\"}";
    LastQuote(line);
    assert line[|p|..|line| - 2] == body;
  }

  /** Replacing text that starts with a character the subject lacks
      changes nothing. */
  lemma {:induction false} ReplaceAbsent(s: Str, t: Str, r: Str)
    requires |t| > 0 && t[0] !in s
    ensures Replace(s, t, r) == s
    decreases |s|
  {
    if |s| >= |t| {
      assert s[0] != t[0];
      assert s[..|t|] != t by {
        assert s[..|t|][0] == s[0];
      }
      ReplaceAbsent(s[1..], t, r);
      assert [s[0]] + s[1..] == s;
    }
  }

  /** Text the as-written reading gets back intact: no backslash, and no
      control character but the line break. */
  predicate SimpleText(s: Str) {
    forall k | 0 <= k < |s| :: (' ' <= s[k] || s[k] == '\n') && s[k] != '\\'
  }

  lemma SimpleHasNoBackslash(s: Str)
    requires SimpleText(s)
    ensures '\\' !in s
  {
    forall k | 0 <= k < |s| ensures s[k] != '\\' {
    }
  }

  /** `s` with only its quotes escaped. */
  function QuotesEscaped(s: Str): Str
    decreases |s|
  {
    if s == [] then [] else (if s[0] == '"' then ESCAPED_QUOTE else [s[0]]) + QuotesEscaped(s[1..])
  }

  /** A replacement cannot start inside text that lacks its first
      character. */
  lemma {:induction false} ReplaceSkips(p: Str, u: Str, t: Str, r: Str)
    requires |t| > 0 && t[0] !in p
    ensures Replace(p + u, t, r) == p + Replace(u, t, r)
    decreases |p|
  {
    if p == [] {
      assert p + u == u;
    } else {
      var x := p + u;
      assert x[0] == p[0] && x[1..] == p[1..] + u;
      ReplaceSkips(p[1..], u, t, r);
      if |x| >= |t| {
        assert x[..|t|] != t by {
          assert x[..|t|][0] == p[0];
        }
        assert [p[0]] + p[1..] == p;
      }
    }
  }

  /** A replacement at the very start of the text. */
  lemma ReplaceHead(t: Str, v: Str, r: Str)
    requires |t| > 0
    ensures Replace(t + v, t, r) == r + Replace(v, t, r)
  {
    var x := t + v;
    assert x[..|t|] == t && x[|t|..] == v;
  }

  /** Undoing `\n` in escaped simple text leaves only its quotes
      escaped. */
  lemma {:induction false} NewlinesDecoded(s: Str, u: Str)
    requires SimpleText(s)
    ensures Replace(Escape(s) + u, ESCAPED_NEWLINE, "\n") == QuotesEscaped(s) + Replace(u, ESCAPED_NEWLINE, "\n")
    decreases |s|
  {
    if s == [] {
      assert Escape(s) + u == u;
    } else {
      SimpleTail(s);
      NewlinesDecoded(s[1..], u);
      NewlineStep(s[0], s[1..], u);
      assert [s[0]] + s[1..] == s;
    }
  }

  /** The step of `NewlinesDecoded`: one more character in front. */
  lemma NewlineStep(c: char, tail: Str, u: Str)
    requires (' ' <= c || c == '\n') && c != '\\'
    requires Replace(Escape(tail) + u, ESCAPED_NEWLINE, "\n") == QuotesEscaped(tail) + Replace(u, ESCAPED_NEWLINE, "\n")
    ensures Replace(Escape([c] + tail) + u, ESCAPED_NEWLINE, "\n")
            == QuotesEscaped([c] + tail) + Replace(u, ESCAPED_NEWLINE, "\n")
  {
    ConsLayout(c, tail, u);
    CharNewlineDecoded(c, Escape(tail) + u);
    Regroup3((if c == '"' then ESCAPED_QUOTE else [c]), QuotesEscaped(tail), Replace(u, ESCAPED_NEWLINE, "\n"));
  }

  lemma Regroup3(a: Str, b: Str, d: Str)
    ensures a + (b + d) == a + b + d
  {
  }

  /** How one more character in front shows in `Escape` and in
      `QuotesEscaped`. */
  lemma ConsLayout(c: char, tail: Str, u: Str)
    ensures Escape([c] + tail) + u == EscapeChar(c) + (Escape(tail) + u)
    ensures QuotesEscaped([c] + tail) == (if c == '"' then ESCAPED_QUOTE else [c]) + QuotesEscaped(tail)
  {
    var s := [c] + tail;
    assert s[0] == c && s[1..] == tail;
  }

  lemma SimpleTail(s: Str)
    requires SimpleText(s) && s != []
    ensures SimpleText(s[1..]) && (' ' <= s[0] || s[0] == '\n') && s[0] != '\\'
  {
    forall k | 0 <= k < |s[1..]| ensures (' ' <= s[1..][k] || s[1..][k] == '\n') && s[1..][k] != '\\' {
      assert s[1..][k] == s[k + 1];
    }
  }

  /** One character of simple text, escaped, then `\n` undone. */
  lemma CharNewlineDecoded(c: char, v: Str)
    requires (' ' <= c || c == '\n') && c != '\\'
    ensures Replace(EscapeChar(c) + v, ESCAPED_NEWLINE, "\n")
            == (if c == '"' then ESCAPED_QUOTE else [c]) + Replace(v, ESCAPED_NEWLINE, "\n")
  {
    if c == '\n' {
      ReplaceHead(ESCAPED_NEWLINE, v, "\n");
    } else if c == '"' {
      var x := ESCAPED_QUOTE + v;
      assert x[..2] != ESCAPED_NEWLINE by {
        assert x[..2][1] == '"';
      }
      assert x[1..] == QUOTE + v;
      ReplaceSkips(QUOTE, v, ESCAPED_NEWLINE, "\n");
      assert [x[0]] + QUOTE == ESCAPED_QUOTE;
    } else {
      assert EscapeChar(c) == [c];
      ReplaceSkips([c], v, ESCAPED_NEWLINE, "\n");
    }
  }

  /** Undoing `\"` where only quotes are escaped gives the text back. */
  lemma {:induction false} QuotesDecoded(s: Str, u: Str)
    requires '\\' !in s
    ensures Replace(QuotesEscaped(s) + u, ESCAPED_QUOTE, QUOTE) == s + Replace(u, ESCAPED_QUOTE, QUOTE)
    decreases |s|
  {
    if s == [] {
      assert QuotesEscaped(s) + u == u;
    } else {
      QuotesDecoded(s[1..], u);
      QuoteStep(s[0], s[1..], u);
      assert [s[0]] + s[1..] == s;
    }
  }

  /** The step of `QuotesDecoded`: one more character in front. */
  lemma QuoteStep(c: char, tail: Str, u: Str)
    requires c != '\\'
    requires Replace(QuotesEscaped(tail) + u, ESCAPED_QUOTE, QUOTE) == tail + Replace(u, ESCAPED_QUOTE, QUOTE)
    ensures Replace(QuotesEscaped([c] + tail) + u, ESCAPED_QUOTE, QUOTE) == [c] + tail + Replace(u, ESCAPED_QUOTE, QUOTE)
  {
    ConsLayout(c, tail, u);
    Regroup3((if c == '"' then ESCAPED_QUOTE else [c]), QuotesEscaped(tail), u);
    CharQuoteDecoded(c, QuotesEscaped(tail) + u);
    Regroup3([c], tail, Replace(u, ESCAPED_QUOTE, QUOTE));
  }

  /** One character with its quote escaped, then `\"` undone. */
  lemma CharQuoteDecoded(c: char, v: Str)
    requires c != '\\'
    ensures Replace((if c == '"' then ESCAPED_QUOTE else [c]) + v, ESCAPED_QUOTE, QUOTE)
            == [c] + Replace(v, ESCAPED_QUOTE, QUOTE)
  {
    if c == '"' {
      ReplaceHead(ESCAPED_QUOTE, v, QUOTE);
    } else {
      ReplaceSkips([c], v, ESCAPED_QUOTE, QUOTE);
    }
  }

  /** The two replacements of `findTurn` undo the ledger's escaping of
      simple text. */
  lemma AsWrittenUndoes(s: Str)
    requires SimpleText(s)
    ensures Replace(Replace(Escape(s), ESCAPED_NEWLINE, "\n"), ESCAPED_QUOTE, QUOTE) == s
  {
    NewlinesDecoded(s, []);
    SimpleHasNoBackslash(s);
    QuotesDecoded(s, []);
    assert Escape(s) + [] == Escape(s);
    assert QuotesEscaped(s) + [] == QuotesEscaped(s);
    assert s + [] == s;
  }

  /** The corrected lookup reads back, exactly, the message of the
      assistant turn the ledger wrote for the requested index, with or
      without a model, whatever lines follow it. */
  lemma LedgerTurnFound(idx: int, ts: Str, msg: Str, model: Option<Str>, rest: seq<Str>)
    requires InInt32(idx) && 'm' !in ts
    ensures FindTurnIn([TurnLine(idx, ts, ASSISTANT, msg, model)] + rest, idx) == Some(msg)
  {
    var line := TurnLine(idx, ts, ASSISTANT, msg, model);
    LedgerLineTaken(idx, ts, msg, model);
    var prefix := LinePrefix(idx, ts, ASSISTANT);
    AfterKey(prefix, Escape(msg), ModelTail(model));
    ReadEscaped(msg, ModelTail(model) + "}");
    assert ([line] + rest)[0] == line;
  }

  /** A line with a model field, regrouped around its last quote. */
  lemma ModelLineLayout(p: Str, m: Str, model: Str)
    ensures p + MSG_KEY + m + QUOTE + (MODEL_FIELD + model + QUOTE) + "}"
         == (p + MSG_KEY) + (m + QUOTE + MODEL_FIELD + model) + "\"}"
  {
  }

  /** As written, `findTurn` runs the message on to the last quote of the
      line: for an assistant turn with a model, which is how the ledger
      writes every reply, the text of the model field is appended to the
      message. */
  lemma ModelFieldLeaks(idx: int, ts: Str, msg: Str, model: Str, rest: seq<Str>)
    requires InInt32(idx) && 'm' !in ts && SimpleText(msg) && SimpleText(model)
    ensures FindTurnAsWritten([TurnLine(idx, ts, ASSISTANT, msg, Some(model))] + rest, idx)
            == Some(msg + QUOTE + MODEL_FIELD + model)
  {
    var line := TurnLine(idx, ts, ASSISTANT, msg, Some(model));
    var prefix := LinePrefix(idx, ts, ASSISTANT);
    LedgerLineTaken(idx, ts, msg, Some(model));
    ModelLineLayout(prefix, Escape(msg), Escape(model));
    UpToLastQuote(prefix + MSG_KEY, Escape(msg) + QUOTE + MODEL_FIELD + Escape(model));
    ModelBodyDecoded(msg, model);
    assert ([line] + rest)[0] == line;
  }

  /** The two replacements of `findTurn` applied to the escaped message,
      the model field and the escaped model. */
  lemma ModelBodyDecoded(msg: Str, model: Str)
    requires SimpleText(msg) && SimpleText(model)
    ensures var body := Escape(msg) + QUOTE + MODEL_FIELD + Escape(model);
      Replace(Replace(body, ESCAPED_NEWLINE, "\n"), ESCAPED_QUOTE, QUOTE) == msg + QUOTE + MODEL_FIELD + model
  {
    var field := QUOTE + MODEL_FIELD;
    ModelNewlinesDecoded(msg, model, field);
    ModelQuotesDecoded(msg, model, field);
    Regroup(Escape(msg), QUOTE, MODEL_FIELD, Escape(model));
    Regroup(msg, QUOTE, MODEL_FIELD, model);
  }

  lemma Regroup(a: Str, b: Str, c: Str, d: Str)
    ensures a + b + c + d == a + (b + c + d)
  {
  }

  lemma ModelNewlinesDecoded(msg: Str, model: Str, field: Str)
    requires SimpleText(msg) && SimpleText(model) && field == QUOTE + MODEL_FIELD
    ensures Replace(Escape(msg) + (field + Escape(model)), ESCAPED_NEWLINE, "\n")
            == QuotesEscaped(msg) + (field + QuotesEscaped(model))
  {
    assert '\\' !in field;
    NewlinesDecoded(msg, field + Escape(model));
    ReplaceSkips(field, Escape(model), ESCAPED_NEWLINE, "\n");
    NewlinesDecoded(model, []);
    assert Escape(model) + [] == Escape(model);
    assert QuotesEscaped(model) + [] == QuotesEscaped(model);
    assert Replace([], ESCAPED_NEWLINE, "\n") == [];
  }

  lemma ModelQuotesDecoded(msg: Str, model: Str, field: Str)
    requires SimpleText(msg) && SimpleText(model) && field == QUOTE + MODEL_FIELD
    ensures Replace(QuotesEscaped(msg) + (field + QuotesEscaped(model)), ESCAPED_QUOTE, QUOTE)
            == msg + (field + model)
  {
    assert '\\' !in field;
    SimpleHasNoBackslash(msg);
    SimpleHasNoBackslash(model);
    QuotesDecoded(msg, field + QuotesEscaped(model));
    ReplaceSkips(field, QuotesEscaped(model), ESCAPED_QUOTE, QUOTE);
    QuotesDecoded(model, []);
    assert QuotesEscaped(model) + [] == QuotesEscaped(model);
    assert model + [] == model;
    assert Replace([], ESCAPED_QUOTE, QUOTE) == [];
  }

  /** Where the as-written reading is right: an assistant turn logged
      without a model, whose text has no backslash and no control
      character but the line break, is read back exactly, as the JSON
      reading reads it. */
  lemma ModellessReplyAgrees(idx: int, ts: Str, msg: Str, rest: seq<Str>)
    requires InInt32(idx) && 'm' !in ts && SimpleText(msg)
    ensures FindTurnAsWritten([TurnLine(idx, ts, ASSISTANT, msg, None)] + rest, idx) == Some(msg)
    ensures FindTurnIn([TurnLine(idx, ts, ASSISTANT, msg, None)] + rest, idx) == Some(msg)
  {
    var line := TurnLine(idx, ts, ASSISTANT, msg, None);
    var prefix := LinePrefix(idx, ts, ASSISTANT);
    LedgerLineTaken(idx, ts, msg, None);
    LedgerTurnFound(idx, ts, msg, None, rest);
    PlainLineLayout(prefix, Escape(msg));
    UpToLastQuote(prefix + MSG_KEY, Escape(msg));
    AsWrittenUndoes(msg);
    assert ([line] + rest)[0] == line;
  }

  /** The two characters backslash and `n`, as the ledger escapes them
      and as `findTurn` unescapes them. */
  lemma BackslashNText()
    ensures Escape("\\n") == "\\\\n"
    ensures Replace(Replace("\\\\n", ESCAPED_NEWLINE, "\n"), ESCAPED_QUOTE, QUOTE) == "\\\n"
  {
    assert Replace("\\\\n", ESCAPED_NEWLINE, "\n") == "\\\n";
    var broken := "\\\n";
    assert broken[..2][1] != ESCAPED_QUOTE[1];
    assert Replace(broken[1..], ESCAPED_QUOTE, QUOTE) == broken[1..];
  }

  /** A line without a model field, regrouped around its last quote. */
  lemma PlainLineLayout(p: Str, m: Str)
    ensures p + MSG_KEY + m + QUOTE + ModelTail(None) + "}" == (p + MSG_KEY) + m + "\"}"
  {
  }

  /** As written, `findTurn` undoes `\n` before it looks at escaped
      backslashes: a message holding a backslash followed by `n`, as in
      awk's `"%s\n"`, comes back as a backslash and a line break. */
  lemma BackslashCorrupted(idx: int, ts: Str, rest: seq<Str>)
    requires InInt32(idx) && 'm' !in ts
    ensures FindTurnAsWritten([TurnLine(idx, ts, ASSISTANT, "\\n", None)] + rest, idx) == Some("\\\n")
    ensures FindTurnIn([TurnLine(idx, ts, ASSISTANT, "\\n", None)] + rest, idx) == Some("\\n")
  {
    var msg := "\\n";
    var line := TurnLine(idx, ts, ASSISTANT, msg, None);
    var prefix := LinePrefix(idx, ts, ASSISTANT);
    LedgerLineTaken(idx, ts, msg, None);
    LedgerTurnFound(idx, ts, msg, None, rest);
    BackslashNText();
    PlainLineLayout(prefix, Escape(msg));
    UpToLastQuote(prefix + MSG_KEY, Escape(msg));
    assert ([line] + rest)[0] == line;
  }

  // ------------------------------------------------------ promotion

  const CHAT_DIR: Str := ".vawk/chat/"
  const CHAT_SUFFIX: Str := ".vawk"

  /** The session's store, relative to the working directory. */
  function ChatFile(sessionId: Str): Str {
    CHAT_DIR + sessionId + CHAT_SUFFIX
  }

  /** What `spec.yaml` of a job records: its id, where it came from, and
      the PLAN and TESTS of the promoted reply. */
  datatype JobSpec = JobSpec(id: Str, sessionId: Str, turnIdx: int, plan: Option<Str>, tests: Option<Str>)

  /** A job directory: `script.awk` and `spec.yaml`. */
  datatype Job = Job(script: Str, spec: JobSpec)

  /** The reply `call` promotes: the session's store exists and reads, the
      turn is found in it, and its sections pass the structure check;
      `None` at the first step that fails. */
  function PromotableReply(fs: FileSystem, sessionId: Str, turnIdx: int): (r: Option<AiResponse>)
    ensures r.Some? ==> Validate(Some(r.value)).None? && r.value.code.Some?
    ensures r.Some? ==> FileAt(fs, ChatFile(sessionId)).Readable?
    ensures !Exists(fs, ChatFile(sessionId)) ==> r.None?
  {
    match ReadString(fs, ChatFile(sessionId))
    case Err(_) => None
    case Ok(text) =>
      match FindTurnAsWritten(Lines(text), turnIdx)
      case None => None
      case Some(msg) =>
        var response := Sections(Some(msg));
        if Validate(Some(response)).Some? then None else Some(response)
  }

  /** The job a validated reply becomes. */
  function NewJob(jobName: Str, sessionId: Str, turnIdx: int, response: AiResponse): Job
    requires response.code.Some?
  {
    Job(StripCodeFences(response.code).value, JobSpec(jobName, sessionId, turnIdx, response.plan, response.tests))
  }

  /** The last steps of `call` for the reply found (or not): the exit
      code and the jobs after it. A job is added only for a promotable
      reply under a name not yet taken, an existing job is never replaced,
      and every failure leaves the jobs as they were. */
  function Promotion(jobs: map<Str, Job>, jobName: Str, sessionId: Str, turnIdx: int, reply: Option<AiResponse>)
    : (r: (int, map<Str, Job>))
    requires reply.Some? ==> reply.value.code.Some?
    ensures r.0 == 0 || r.0 == 1
    ensures r.0 == 0 <==> reply.Some? && jobName !in jobs
    ensures r.0 == 1 ==> r.1 == jobs
    ensures r.0 == 0 ==>
      r.1.Keys == jobs.Keys + {jobName}
      && (forall other | other in jobs :: r.1[other] == jobs[other])
      && r.1[jobName].script == StripCodeFences(reply.value.code).value
      && r.1[jobName].spec == JobSpec(jobName, sessionId, turnIdx, reply.value.plan, reply.value.tests)
  {
    match reply
    case None => (1, jobs)
    case Some(response) =>
      if jobName in jobs then (1, jobs)
      else (0, jobs[jobName := NewJob(jobName, sessionId, turnIdx, response)])
  }

  /** `call` as a value. */
  function Promoted(fs: FileSystem, jobs: map<Str, Job>, sessionId: Str, turnIdx: int, name: Option<Str>)
    : (int, map<Str, Job>)
  {
    Promotion(jobs, JobName(name, sessionId, turnIdx), sessionId, turnIdx, PromotableReply(fs, sessionId, turnIdx))
  }

  /** `PromoteCommand` over a working directory: the files it reads and
      the job directories under `vawk/jobs`. */
  class Promoter {
    const files: FileSystem
    var jobs: map<Str, Job>

    constructor(files: FileSystem, jobs: map<Str, Job>)
      ensures this.files == files && this.jobs == jobs
    {
      this.files := files;
      this.jobs := jobs;
    }

    /** `call`. */
    method Call(sessionId: Str, turnIdx: int, name: Option<Str>) returns (code: int)
      modifies this
      ensures (code, jobs) == Promoted(files, old(jobs), sessionId, turnIdx, name)
    {
      var jobName := JobName(name, sessionId, turnIdx);
      var reply := ReadReply(sessionId, turnIdx);
      if reply.None? {
        return 1;
      }
      var response := reply.value;
      if jobName in jobs {
        return 1;
      }
      var script := StripCodeFences(response.code).value;
      jobs := jobs[jobName := Job(script, JobSpec(jobName, sessionId, turnIdx, response.plan, response.tests))];
      return 0;
    }

    /** The steps of `call` up to the structure check. */
    method ReadReply(sessionId: Str, turnIdx: int) returns (reply: Option<AiResponse>)
      ensures reply == PromotableReply(files, sessionId, turnIdx)
    {
      var chatFile := ChatFile(sessionId);
      if !Exists(files, chatFile) {
        return None;
      }
      var text := ReadString(files, chatFile);
      if text.Err? {
        return None;
      }
      var msg := FindTurn(Lines(text.value), turnIdx);
      if msg.None? {
        return None;
      }
      var response := Parse(Some(msg.value));
      var failure := RequirePlanCodeTestsNotes(Some(response));
      if failure.Some? {
        return None;
      }
      reply := Some(response);
    }
  }

  // ------------------------------------------------------ properties

  /** The structure check comes before the job directory is looked at:
      a turn that cannot be promoted fails the same way whatever jobs
      exist, and a taken name fails only a turn that could be promoted. */
  lemma CheckedBeforeJobDir(fs: FileSystem, jobs: map<Str, Job>, other: map<Str, Job>, sessionId: Str, turnIdx: int,
                            name: Option<Str>)
    requires PromotableReply(fs, sessionId, turnIdx).None?
    ensures Promoted(fs, jobs, sessionId, turnIdx, name) == (1, jobs)
    ensures Promoted(fs, other, sessionId, turnIdx, name).0 == Promoted(fs, jobs, sessionId, turnIdx, name).0
  {
  }

  /** Promoting twice under one name: the second call fails and leaves
      the first job as it is. */
  lemma SecondPromotionRefused(fs: FileSystem, jobs: map<Str, Job>, sessionId: Str, turnIdx: int, name: Option<Str>)
    requires Promoted(fs, jobs, sessionId, turnIdx, name).0 == 0
    ensures var after := Promoted(fs, jobs, sessionId, turnIdx, name).1;
      Promoted(fs, after, sessionId, turnIdx, name) == (1, after)
  {
  }

  /** The text `call` reads for an assistant reply the ledger wrote: the
      message, followed by the model field when there is one. */
  function ReadAsWritten(msg: Str, model: Option<Str>): Str {
    if model.Some? then msg + QUOTE + MODEL_FIELD + model.value else msg
  }

  /** The whole round trip: when an assistant reply the ledger wrote is
      the first line of the store, `call` promotes that reply as it reads
      it (the message, and the model field after it when there is one)
      exactly when it passes the structure check. */
  lemma LedgerReplyPromoted(fs: FileSystem, sessionId: Str, turnIdx: int, ts: Str, msg: Str, model: Option<Str>,
                            rest: seq<Str>)
    requires InInt32(turnIdx) && 'm' !in ts && SimpleText(msg) && (model.Some? ==> SimpleText(model.value))
    requires FileAt(fs, ChatFile(sessionId)).Readable?
    requires Lines(FileAt(fs, ChatFile(sessionId)).text) == [TurnLine(turnIdx, ts, ASSISTANT, msg, model)] + rest
    ensures var response := Sections(Some(ReadAsWritten(msg, model)));
      PromotableReply(fs, sessionId, turnIdx) == if Validate(Some(response)).None? then Some(response) else None
  {
    if model.Some? {
      ModelFieldLeaks(turnIdx, ts, msg, model.value, rest);
    } else {
      ModellessReplyAgrees(turnIdx, ts, msg, rest);
    }
  }
}

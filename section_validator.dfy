/** Checks that a parsed reply has all four sections and that its CODE opens
    with the labelled AWK header block. A failure is reported as the message
    of the `IllegalStateException` the application throws. */
module SectionValidator {
  import opened Wrappers
  import opened JavaText
  import opened Domain
  import opened SectionParser

  const RESPONSE_MISSING: Str := "AI response " + "missing"

  /** The message for a section that is null or blank. */
  function SectionMissing(name: Str): Str {
    RESPONSE_MISSING + " " + name + " section"
  }

  const PLAN_MISSING: Str := SectionMissing("PLAN")
  const CODE_MISSING: Str := SectionMissing("CODE")
  const TESTS_MISSING: Str := SectionMissing("TESTS")
  const NOTES_MISSING: Str := SectionMissing("NOTES")
  const HEADER_MISSING: Str := "AWK header" + " missing required labels (VAWK/Purpose/Intent/Input/Output)"

  /** The lengths and the char that tell the six messages apart. */
  lemma MessagesDistinct()
    ensures |RESPONSE_MISSING| == 19 && |HEADER_MISSING| == 69
    ensures |PLAN_MISSING| == |CODE_MISSING| == 32 && |TESTS_MISSING| == |NOTES_MISSING| == 33
    ensures PLAN_MISSING[20] == 'P' && CODE_MISSING[20] == 'C'
    ensures TESTS_MISSING[20] == 'T' && NOTES_MISSING[20] == 'N'
  {
  }

  const VAWK_LABEL: Str := "# VAWK:"
  const PURPOSE_LABEL: Str := "# Purpose:"
  const INTENT_LABEL: Str := "# Intent:"
  const INPUT_LABEL: Str := "# Input:"
  const OUTPUT_LABEL: Str := "# Output:"

  /** How many counted lines the header scan looks at. */
  const WINDOW: nat := 10

  /** `stripFence`: the text between the first newline and the last ``` of
      a fenced block (not trimmed), otherwise the trimmed text. */
  function StripFence(code: Str): (r: Str)
    ensures !StartsWith(Trim(code), "```") ==> r == Trim(code)
  {
    var trimmed := Trim(code);
    match FencedInner(trimmed)
    case Some(inner) => inner
    case None => trimmed
  }

  /** A trimmed line the header scan passes over without counting it:
      a blank line or any `#!` line. */
  predicate Skipped(trimmed: Str) {
    trimmed == [] || StartsWith(trimmed, "#!")
  }

  /** The trimmed lines the header scan counts, in order. */
  function Counted(lines: seq<Str>): seq<Str>
    decreases |lines|
  {
    if lines == [] then []
    else
      var t := Trim(lines[|lines| - 1]);
      Counted(lines[..|lines| - 1]) + (if Skipped(t) then [] else [t])
  }

  /** The counted lines the scan reaches before it stops. */
  function Window(lines: seq<Str>): (w: seq<Str>)
    ensures |w| <= WINDOW
  {
    var c := Counted(lines);
    if |c| <= WINDOW then c else c[..WINDOW]
  }

  /** Some line of `w` starts with `prefix`. */
  predicate Labelled(w: seq<Str>, prefix: Str) {
    exists k | 0 <= k < |w| :: StartsWith(w[k], prefix)
  }

  /** All five labels start some line within the window, in any order. */
  predicate HeaderIn(lines: seq<Str>) {
    var w := Window(lines);
    Labelled(w, VAWK_LABEL) && Labelled(w, PURPOSE_LABEL) && Labelled(w, INTENT_LABEL)
    && Labelled(w, INPUT_LABEL) && Labelled(w, OUTPUT_LABEL)
  }

  /** The header rule applied to a CODE section as the model sent it. */
  predicate HeaderPresent(codeWithFence: Str) {
    HeaderIn(LinesNoTrailing(StripFence(codeWithFence)))
  }

  /** Counting lines of a concatenation counts each part in turn. */
  lemma {:induction false} CountedConcat(a: seq<Str>, b: seq<Str>)
    ensures Counted(a + b) == Counted(a) + Counted(b)
    decreases |b|
  {
    if b == [] {
      assert a + b == a;
    } else {
      var b0 := b[..|b| - 1];
      assert (a + b)[..|a + b| - 1] == a + b0;
      CountedConcat(a, b0);
    }
  }

  lemma LabelledSnoc(w: seq<Str>, t: Str, prefix: Str)
    ensures Labelled(w + [t], prefix) <==> Labelled(w, prefix) || StartsWith(t, prefix)
  {
    if StartsWith(t, prefix) {
      assert (w + [t])[|w|] == t;
    }
    if Labelled(w, prefix) {
      var k :| 0 <= k < |w| && StartsWith(w[k], prefix);
      assert (w + [t])[k] == w[k];
    }
    if Labelled(w + [t], prefix) {
      var k :| 0 <= k < |w + [t]| && StartsWith((w + [t])[k], prefix);
      if k < |w| {
        assert w[k] == (w + [t])[k];
      }
    }
  }

  lemma CountedStep(lines: seq<Str>, i: nat)
    requires i < |lines|
    ensures Counted(lines[..i + 1])
         == Counted(lines[..i]) + (if Skipped(Trim(lines[i])) then [] else [Trim(lines[i])])
  {
    assert lines[..i + 1][..i] == lines[..i];
  }

  /** The window of a text whose first `i` lines already hold `WINDOW`
      counted lines is exactly those lines. */
  lemma WindowReached(lines: seq<Str>, i: nat)
    requires i <= |lines| && |Counted(lines[..i])| == WINDOW
    ensures Window(lines) == Counted(lines[..i])
  {
    assert lines == lines[..i] + lines[i..];
    CountedConcat(lines[..i], lines[i..]);
  }

  /** `requireAwkHeader`: scans at most `WINDOW` counted lines, noting
      which labels start them, and fails unless all five were seen. */
  method RequireAwkHeader(codeWithFence: Str) returns (failure: Option<Str>)
    ensures failure.None? <==> HeaderPresent(codeWithFence)
    ensures failure.Some? ==> failure.value == HEADER_MISSING
  {
    var code := StripFence(codeWithFence);
    var lines := LinesNoTrailing(code);
    var checked := 0;
    var hasVawk, hasPurpose, hasIntent, hasInput, hasOutput := false, false, false, false, false;
    var i := 0;
    while i < |lines|
      invariant 0 <= i <= |lines|
      invariant checked == |Counted(lines[..i])| < WINDOW
      invariant hasVawk == Labelled(Counted(lines[..i]), VAWK_LABEL)
      invariant hasPurpose == Labelled(Counted(lines[..i]), PURPOSE_LABEL)
      invariant hasIntent == Labelled(Counted(lines[..i]), INTENT_LABEL)
      invariant hasInput == Labelled(Counted(lines[..i]), INPUT_LABEL)
      invariant hasOutput == Labelled(Counted(lines[..i]), OUTPUT_LABEL)
    {
      var seen := Counted(lines[..i]);
      CountedStep(lines, i);
      var trimmed := Trim(lines[i]);
      if trimmed == [] {
        assert Counted(lines[..i + 1]) == seen;
        i := i + 1;
        continue;
      }
      if StartsWith(trimmed, "#!") {
        assert Counted(lines[..i + 1]) == seen;
        i := i + 1;
        continue;
      }
      assert Counted(lines[..i + 1]) == seen + [trimmed];
      LabelledSnoc(seen, trimmed, VAWK_LABEL);
      LabelledSnoc(seen, trimmed, PURPOSE_LABEL);
      LabelledSnoc(seen, trimmed, INTENT_LABEL);
      LabelledSnoc(seen, trimmed, INPUT_LABEL);
      LabelledSnoc(seen, trimmed, OUTPUT_LABEL);
      if !hasVawk && StartsWith(trimmed, VAWK_LABEL) {
        hasVawk := true;
      }
      if StartsWith(trimmed, PURPOSE_LABEL) {
        hasPurpose := true;
      }
      if StartsWith(trimmed, INTENT_LABEL) {
        hasIntent := true;
      }
      if StartsWith(trimmed, INPUT_LABEL) {
        hasInput := true;
      }
      if StartsWith(trimmed, OUTPUT_LABEL) {
        hasOutput := true;
      }
      checked := checked + 1;
      i := i + 1;
      if checked >= WINDOW {
        break;
      }
    }
    if checked == WINDOW {
      WindowReached(lines, i);
    } else {
      assert lines[..i] == lines;
    }
    if !hasVawk || !hasPurpose || !hasIntent || !hasInput || !hasOutput {
      return Some(HEADER_MISSING);
    }
    return None;
  }

  /** `requirePlanCodeTestsNotes`: the message of the first failing check,
      in the order response, PLAN, CODE, header, TESTS, NOTES; `None` when
      the call returns normally. */
  function Validate(response: Option<AiResponse>): (failure: Option<Str>)
    ensures failure.None? <==>
      response.Some? && !NullOrTrimEmpty(response.value.plan) && !NullOrTrimEmpty(response.value.code)
      && HeaderPresent(response.value.code.value)
      && !NullOrTrimEmpty(response.value.tests) && !NullOrTrimEmpty(response.value.notes)
    ensures failure == Some(RESPONSE_MISSING) <==> response.None?
    ensures failure == Some(PLAN_MISSING) <==> response.Some? && NullOrTrimEmpty(response.value.plan)
    ensures failure == Some(CODE_MISSING) <==>
      response.Some? && !NullOrTrimEmpty(response.value.plan) && NullOrTrimEmpty(response.value.code)
    ensures failure == Some(HEADER_MISSING) <==>
      response.Some? && !NullOrTrimEmpty(response.value.plan) && !NullOrTrimEmpty(response.value.code)
      && !HeaderPresent(response.value.code.value)
    ensures failure == Some(TESTS_MISSING) <==>
      response.Some? && !NullOrTrimEmpty(response.value.plan) && !NullOrTrimEmpty(response.value.code)
      && HeaderPresent(response.value.code.value) && NullOrTrimEmpty(response.value.tests)
    ensures failure == Some(NOTES_MISSING) <==>
      response.Some? && !NullOrTrimEmpty(response.value.plan) && !NullOrTrimEmpty(response.value.code)
      && HeaderPresent(response.value.code.value) && !NullOrTrimEmpty(response.value.tests)
      && NullOrTrimEmpty(response.value.notes)
  {
    MessagesDistinct();
    match response
    case None => Some(RESPONSE_MISSING)
    case Some(r) =>
      if NullOrTrimEmpty(r.plan) then Some(PLAN_MISSING)
      else if NullOrTrimEmpty(r.code) then Some(CODE_MISSING)
      else if !HeaderPresent(r.code.value) then Some(HEADER_MISSING)
      else if NullOrTrimEmpty(r.tests) then Some(TESTS_MISSING)
      else if NullOrTrimEmpty(r.notes) then Some(NOTES_MISSING)
      else None
  }

  /** `requirePlanCodeTestsNotes` as the application runs it. */
  method RequirePlanCodeTestsNotes(response: Option<AiResponse>) returns (failure: Option<Str>)
    ensures failure == Validate(response)
  {
    if response.None? {
      return Some(RESPONSE_MISSING);
    }
    var r := response.value;
    if NullOrTrimEmpty(r.plan) {
      return Some(PLAN_MISSING);
    }
    if NullOrTrimEmpty(r.code) {
      return Some(CODE_MISSING);
    }
    failure := RequireAwkHeader(r.code.value);
    if failure.Some? {
      return;
    }
    if NullOrTrimEmpty(r.tests) {
      return Some(TESTS_MISSING);
    }
    if NullOrTrimEmpty(r.notes) {
      return Some(NOTES_MISSING);
    }
    return None;
  }

  // ------------------------------------------------- header properties

  /** A blank or `#!` line anywhere changes nothing: it is not counted. */
  lemma SkippedLineIgnored(a: seq<Str>, line: Str, b: seq<Str>)
    requires Skipped(Trim(line))
    ensures Counted(a + [line] + b) == Counted(a + b)
    ensures HeaderIn(a + [line] + b) <==> HeaderIn(a + b)
  {
    CountedConcat(a + [line], b);
    CountedConcat(a, [line]);
    CountedConcat(a, b);
    assert [line][..0] == [];
  }

  /** Once `WINDOW` lines have been counted, nothing after them matters:
      a label first seen later does not satisfy the header. */
  lemma LateLinesIgnored(a: seq<Str>, b: seq<Str>)
    requires |Counted(a)| >= WINDOW
    ensures Window(a + b) == Window(a)
    ensures HeaderIn(a + b) <==> HeaderIn(a)
  {
    CountedConcat(a, b);
    assert (Counted(a) + Counted(b))[..WINDOW] == Counted(a)[..WINDOW];
  }

  /** A label missing from the first `WINDOW` counted lines fails the
      header whatever follows. */
  lemma LateLabelFails(a: seq<Str>, b: seq<Str>, prefix: Str)
    requires |Counted(a)| >= WINDOW
    requires prefix in [VAWK_LABEL, PURPOSE_LABEL, INTENT_LABEL, INPUT_LABEL, OUTPUT_LABEL]
    requires forall k | 0 <= k < |Counted(a)| :: !StartsWith(Counted(a)[k], prefix)
    ensures !HeaderIn(a + b)
  {
    LateLinesIgnored(a, b);
    var w := Window(a);
    assert forall k | 0 <= k < |w| :: w[k] == Counted(a)[k];
  }

  /** Dropping trailing empty lines changes nothing counted. */
  lemma {:induction false} CountedDropTrailing(lines: seq<Str>)
    ensures Counted(DropTrailingEmpty(lines)) == Counted(lines)
    decreases |lines|
  {
    if lines != [] && lines[|lines| - 1] == [] {
      assert Trim([]) == [];
      CountedDropTrailing(lines[..|lines| - 1]);
    }
  }

  lemma CountedLinesNoTrailing(s: Str)
    ensures Counted(LinesNoTrailing(s)) == Counted(Lines(s))
  {
    if NL in s {
      CountedDropTrailing(Lines(s));
    } else {
      SplitAllNoSep(s, NL);
    }
  }

  /** A trailing line break adds no counted line. */
  lemma CountedTrailingBreak(x: Str)
    ensures Counted(LinesNoTrailing(x + [NL])) == Counted(LinesNoTrailing(x))
  {
    CountedLinesNoTrailing(x + [NL]);
    CountedLinesNoTrailing(x);
    assert x + [NL] == x + [NL] + [];
    SplitAllConcat(x, NL, []);
    assert SplitAll([], NL) == [[]];
    CountedConcat(Lines(x), [[]]);
    var empty: seq<Str> := [[]];
    assert empty[..0] == [];
    assert Trim([]) == [];
  }

  /** A fenced CODE section and its bare body are judged alike. */
  lemma FencedLikeBare(tag: Str, body: Str)
    requires NL !in tag
    requires Trim(body) == body && !StartsWith(body, "```")
    ensures HeaderPresent(Fence(tag, body)) <==> HeaderPresent(body)
  {
    var s := Fence(tag, body);
    assert StripFence(s) == body + [NL] by {
      StripFencedBlock(tag, body);
      TrimNoop(s);
    }
    CountedTrailingBreak(body);
    SameCountedSameHeader(LinesNoTrailing(body + [NL]), LinesNoTrailing(body));
  }

  lemma SameCountedSameHeader(a: seq<Str>, b: seq<Str>)
    requires Counted(a) == Counted(b)
    ensures HeaderIn(a) <==> HeaderIn(b)
  {
  }

  lemma NotLabelled(w: seq<Str>, prefix: Str)
    requires prefix != [] && forall k | 0 <= k < |w| :: w[k] != [] && w[k][0] != prefix[0]
    ensures !Labelled(w, prefix)
  {
  }

  /** A one-line program that does not open with `#`, such as
      `print "ok"`, fails the header. */
  lemma UnlabelledFails(code: Str)
    requires code != [] && NL !in code
    requires !TrimmedAway(code[0]) && !TrimmedAway(code[|code| - 1])
    requires code[0] != '#' && code[0] != '`'
    ensures !HeaderPresent(code)
  {
    TrimNoop(code);
    assert StripFence(code) == code;
    var one: seq<Str> := [code];
    assert Counted(one) == one by {
      assert one[..0] == [];
    }
    NotLabelled(one, VAWK_LABEL);
  }

  /** Empty code has no header. */
  lemma EmptyCodeFails()
    ensures !HeaderPresent([])
  {
    TrimNoop([]);
    assert StripFence([]) == [];
    var one: seq<Str> := [[]];
    assert Counted(one) == [] by {
      assert one[..0] == [];
      TrimNoop([]);
    }
  }

  /** A reply laid out in the required format passes validation once its
      PLAN, TESTS and NOTES hold text and its unfenced CODE has the header. */
  lemma RenderedReplyValidates(pre: Str, p: Str, c: Str, t: Str, n: Str)
    requires NoHeaderLines(pre) && NoHeaderLines(p) && NoHeaderLines(c)
    requires NoHeaderLines(t) && NoHeaderLines(n)
    requires Trim(p) != [] && Trim(t) != [] && Trim(n) != []
    requires !StartsWith(Trim(c), "```") && HeaderPresent(c)
    ensures Validate(Some(Sections(Some(Render(pre, p, c, t, n))))) == None
  {
    ParseRender(pre, p, c, t, n);
    TrimIdempotent(p);
    TrimIdempotent(t);
    TrimIdempotent(n);
    TrimIdempotent(c);
    assert StripFence(Trim(c)) == StripFence(c);
    if Trim(c) == [] {
      EmptyCodeFails();
      assert false;
    }
  }
}

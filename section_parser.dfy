/** Splits a raw model reply into its PLAN/CODE/TESTS/NOTES sections and
    turns a TESTS section into a list of test descriptions. */
module SectionParser {
  import opened Wrappers
  import opened JavaText
  import opened Domain

  /** The section a scanned line lands in; `Outside` before any header. */
  datatype Section = Outside | Plan | Code | Tests | Notes

  /** The section a trimmed line opens, compared without regard to case. */
  function SectionForLine(trimmed: Str): Section
  {
    if EqualsIgnoreCase(trimmed, "PLAN:") then Plan
    else if EqualsIgnoreCase(trimmed, "CODE:") then Code
    else if EqualsIgnoreCase(trimmed, "TESTS:") then Tests
    else if EqualsIgnoreCase(trimmed, "NOTES:") then Notes
    else Outside
  }

  /** A line that only switches the current section. */
  predicate IsHeader(line: Str) {
    SectionForLine(Trim(line)) != Outside
  }

  /** The current section after scanning one more line. */
  function Step(cur: Section, line: Str): Section {
    var next := SectionForLine(Trim(line));
    if next != Outside then next else cur
  }

  function StateAfter(cur: Section, lines: seq<Str>): Section
    decreases |lines|
  {
    if lines == [] then cur else StateAfter(Step(cur, lines[0]), lines[1..])
  }

  /** The lines that land in section `sec` when `lines` are scanned
      starting in section `cur`, in their original order. */
  function Routed(cur: Section, lines: seq<Str>, sec: Section): seq<Str>
    decreases |lines|
  {
    if lines == [] then []
    else
      (if !IsHeader(lines[0]) && cur == sec then [lines[0]] else [])
      + Routed(Step(cur, lines[0]), lines[1..], sec)
  }

  /** `appendLine`: a newline goes in only once the builder holds text. */
  function AppendLine(b: Str, line: Str): Str {
    if |b| > 0 then b + "\n" + line else line
  }

  /** The builder contents after appending each line in turn. */
  function Collect(lines: seq<Str>): Str
    decreases |lines|
  {
    if lines == [] then [] else AppendLine(Collect(lines[..|lines| - 1]), lines[|lines| - 1])
  }

  /** The text strictly between the first newline and the last ``` of a
      text that opens with ```, when that fence comes after the newline. */
  function FencedInner(trimmed: Str): Option<Str> {
    if StartsWith(trimmed, "```") then
      var firstNewline := IndexOf(trimmed, "\n");
      var lastFence := LastIndexOf(trimmed, "```");
      if firstNewline >= 0 && lastFence > firstNewline then Some(trimmed[firstNewline + 1..lastFence])
      else None
    else None
  }

  /** `stripCodeFences`: null stays null; a fenced block gives its trimmed
      inner text; anything else comes back trimmed. */
  function StripCodeFences(text: Option<Str>): (r: Option<Str>)
    ensures r.None? <==> text.None?
    ensures text.Some? && !StartsWith(Trim(text.value), "```") ==> r == Some(Trim(text.value))
    ensures r.Some? ==> Trim(r.value) == r.value
  {
    match text
    case None => None
    case Some(t) =>
      var trimmed := Trim(t);
      TrimIdempotent(t);
      match FencedInner(trimmed)
      case Some(inner) => TrimIdempotent(inner); Some(Trim(inner))
      case None => Some(trimmed)
  }

  /** What `parse` returns: every section is the lines routed to it, joined
      by the builder, trimmed; CODE is fence-stripped as well. */
  function Sections(raw: Option<Str>): (r: AiResponse)
    ensures raw.None? ==> r == AiResponse(None, None, None, None)
    ensures raw.Some? ==> r.plan.Some? && r.code.Some? && r.tests.Some? && r.notes.Some?
  {
    match raw
    case None => AiResponse(None, None, None, None)
    case Some(text) =>
      AiResponse(
        Some(SectionText(text, Plan)),
        StripCodeFences(Some(SectionText(text, Code))),
        Some(SectionText(text, Tests)),
        Some(SectionText(text, Notes)))
  }

  /** The trimmed text of the lines routed to one section. */
  function SectionText(text: Str, sec: Section): Str {
    Trim(Collect(Routed(Outside, Lines(text), sec)))
  }

  /** Scanning a concatenation is scanning each part in turn. */
  lemma {:induction false} RoutedConcat(cur: Section, a: seq<Str>, b: seq<Str>, sec: Section)
    ensures Routed(cur, a + b, sec) == Routed(cur, a, sec) + Routed(StateAfter(cur, a), b, sec)
    ensures StateAfter(cur, a + b) == StateAfter(StateAfter(cur, a), b)
    decreases |a|
  {
    if a != [] {
      assert (a + b)[0] == a[0];
      assert (a + b)[1..] == a[1..] + b;
      RoutedConcat(Step(cur, a[0]), a[1..], b, sec);
    } else {
      assert a + b == b;
    }
  }

  lemma RoutedSnoc(cur: Section, a: seq<Str>, line: Str, sec: Section)
    ensures Routed(cur, a + [line], sec)
         == Routed(cur, a, sec) + (if !IsHeader(line) && StateAfter(cur, a) == sec then [line] else [])
    ensures StateAfter(cur, a + [line]) == Step(StateAfter(cur, a), line)
  {
    RoutedConcat(cur, a, [line], sec);
  }

  /** One more scanned line either extends the builder of the current
      section or leaves it alone. */
  lemma BuilderStep(lines: seq<Str>, i: nat, sec: Section)
    requires i < |lines|
    ensures StateAfter(Outside, lines[..i + 1]) == Step(StateAfter(Outside, lines[..i]), lines[i])
    ensures Collect(Routed(Outside, lines[..i + 1], sec))
         == if !IsHeader(lines[i]) && StateAfter(Outside, lines[..i]) == sec
            then AppendLine(Collect(Routed(Outside, lines[..i], sec)), lines[i])
            else Collect(Routed(Outside, lines[..i], sec))
  {
    assert lines[..i + 1] == lines[..i] + [lines[i]];
    RoutedSnoc(Outside, lines[..i], lines[i], sec);
    var xs := Routed(Outside, lines[..i], sec);
    if !IsHeader(lines[i]) && StateAfter(Outside, lines[..i]) == sec {
      CollectSnoc(xs, lines[i]);
    } else {
      assert Routed(Outside, lines[..i + 1], sec) == xs + [];
      assert xs + [] == xs;
    }
  }

  lemma CollectSnoc(xs: seq<Str>, line: Str)
    ensures Collect(xs + [line]) == AppendLine(Collect(xs), line)
  {
    assert (xs + [line])[..|xs|] == xs;
  }

  /** `parse`: the line scanner with one builder per section. */
  method Parse(raw: Option<Str>) returns (r: AiResponse)
    ensures r == Sections(raw)
  {
    if raw.None? {
      return AiResponse(None, None, None, None);
    }
    var plan, code, tests, notes: Str := [], [], [], [];
    var current := Outside;
    var lines := Lines(raw.value);
    var i := 0;
    while i < |lines|
      invariant 0 <= i <= |lines|
      invariant current == StateAfter(Outside, lines[..i])
      invariant plan == Collect(Routed(Outside, lines[..i], Plan))
      invariant code == Collect(Routed(Outside, lines[..i], Code))
      invariant tests == Collect(Routed(Outside, lines[..i], Tests))
      invariant notes == Collect(Routed(Outside, lines[..i], Notes))
    {
      var line := lines[i];
      BuilderStep(lines, i, Plan);
      BuilderStep(lines, i, Code);
      BuilderStep(lines, i, Tests);
      BuilderStep(lines, i, Notes);
      var next := SectionForLine(Trim(line));
      if next != Outside {
        current := next;
      } else {
        match current
        case Plan => plan := AppendLine(plan, line);
        case Code => code := AppendLine(code, line);
        case Tests => tests := AppendLine(tests, line);
        case Notes => notes := AppendLine(notes, line);
        case Outside =>
      }
      i := i + 1;
    }
    assert lines[..i] == lines;
    r := AiResponse(Some(Trim(plan)), StripCodeFences(Some(Trim(code))), Some(Trim(tests)), Some(Trim(notes)));
  }

  // ------------------------------------------------------------ properties

  /** A header line only switches sections: it is never routed anywhere. */
  lemma {:induction false} HeadersNeverRouted(cur: Section, lines: seq<Str>, sec: Section)
    ensures forall k | 0 <= k < |Routed(cur, lines, sec)| :: !IsHeader(Routed(cur, lines, sec)[k])
    decreases |lines|
  {
    if lines != [] {
      HeadersNeverRouted(Step(cur, lines[0]), lines[1..], sec);
    }
  }

  /** Header-free lines stay in the section they start in. */
  lemma {:induction false} RoutedNoHeaders(cur: Section, lines: seq<Str>, sec: Section)
    requires forall k | 0 <= k < |lines| :: !IsHeader(lines[k])
    ensures Routed(cur, lines, sec) == (if cur == sec then lines else [])
    ensures StateAfter(cur, lines) == cur
    decreases |lines|
  {
    if lines != [] {
      RoutedNoHeaders(cur, lines[1..], sec);
      assert [lines[0]] + lines[1..] == lines;
    }
  }

  /** Lines before the first header are discarded. */
  lemma PreambleDiscarded(pre: seq<Str>, rest: seq<Str>, sec: Section)
    requires forall k | 0 <= k < |pre| :: !IsHeader(pre[k])
    requires sec != Outside
    ensures Routed(Outside, pre + rest, sec) == Routed(Outside, rest, sec)
  {
    RoutedConcat(Outside, pre, rest, sec);
    RoutedNoHeaders(Outside, pre, sec);
  }

  /** A header for a section already seen keeps appending to it, in order. */
  lemma RepeatedHeaderAppends(cur: Section, a: seq<Str>, h: Str, b: seq<Str>, sec: Section)
    requires SectionForLine(Trim(h)) == sec && sec != Outside
    ensures Routed(cur, a + [h] + b, sec) == Routed(cur, a, sec) + Routed(sec, b, sec)
  {
    RoutedConcat(cur, a + [h], b, sec);
    RoutedSnoc(cur, a, h, sec);
  }

  /** `n` newline characters. */
  function Newlines(n: nat): (r: Str)
    ensures |r| == n && forall k | 0 <= k < n :: r[k] == '\n'
  {
    seq(n, _ => '\n')
  }

  /** The builder text is the lines joined by newlines, less the newlines
      that leading empty lines would have produced. */
  lemma {:induction false} CollectJoin(lines: seq<Str>) returns (k: nat)
    ensures Join(lines, "\n") == Newlines(k) + Collect(lines)
    decreases |lines|
  {
    if |lines| <= 1 {
      k := 0;
      assert Newlines(0) == [];
      return;
    }
    var init, last := lines[..|lines| - 1], lines[|lines| - 1];
    assert lines == init + [last];
    var k0 := CollectJoin(init);
    JoinAppend(init, [last], "\n");
    if |Collect(init)| > 0 {
      k := k0;
    } else {
      k := k0 + 1;
      assert Newlines(k0) + "\n" == Newlines(k);
    }
  }

  /** Each section is its lines joined by single newlines, then trimmed. */
  lemma SectionIsTrimmedJoin(lines: seq<Str>)
    ensures Trim(Collect(lines)) == Trim(Join(lines, "\n"))
  {
    var k := CollectJoin(lines);
    TrimPrependPad(Newlines(k), Collect(lines));
  }

  /** The lines of `x` contain no section header. */
  predicate NoHeaderLines(x: Str) {
    forall k | 0 <= k < |Lines(x)| :: !IsHeader(Lines(x)[k])
  }

  /** `before`, then a header line `h`, then `body`. */
  function Block(before: Str, h: Str, body: Str): Str {
    before + [NL] + h + [NL] + body
  }

  /** A reply laid out in the required format after a preamble:
      pre, "PLAN:", p, "CODE:", c, "TESTS:", t, "NOTES:", n, one per line. */
  function Render(pre: Str, p: Str, c: Str, t: Str, n: Str): Str {
    Block(Block(Block(Block(pre, "PLAN:", p), "CODE:", c), "TESTS:", t), "NOTES:", n)
  }

  /** `[h] + body + rest` routed from any section, when `h` opens `s` and
      `body` has no header. */
  lemma RoutedBlock(cur: Section, h: Str, s: Section, body: seq<Str>, rest: seq<Str>, sec: Section)
    requires SectionForLine(Trim(h)) == s && s != Outside
    requires forall k | 0 <= k < |body| :: !IsHeader(body[k])
    ensures Routed(cur, [h] + body + rest, sec) == (if s == sec then body else []) + Routed(s, rest, sec)
  {
    RoutedHeader(cur, h, sec);
    RoutedConcat(cur, [h] + body, rest, sec);
    RoutedConcat(cur, [h], body, sec);
    RoutedNoHeaders(s, body, sec);
    assert Routed(cur, [h] + body, sec) == (if s == sec then body else []);
  }

  /** A header line routes nowhere and switches to its section. */
  lemma RoutedHeader(cur: Section, h: Str, sec: Section)
    requires SectionForLine(Trim(h)) != Outside
    ensures Routed(cur, [h], sec) == [] && StateAfter(cur, [h]) == SectionForLine(Trim(h))
  {
    assert [h][1..] == [];
  }

  lemma LinesWithHeader(pre: Str, h: Str, post: Str)
    requires NL !in h
    ensures Lines(Block(pre, h, post)) == Lines(pre) + ([h] + Lines(post))
  {
    assert pre + [NL] + h + [NL] + post == pre + [NL] + (h + [NL] + post);
    SplitAllConcat(pre, NL, h + [NL] + post);
    SplitAllConcat(h, NL, post);
    SplitAllNoSep(h, NL);
    assert Lines(pre) + [h] + Lines(post) == Lines(pre) + ([h] + Lines(post));
  }

  lemma Reassociate4(a: seq<Str>, x1: seq<Str>, x2: seq<Str>, x3: seq<Str>, x4: seq<Str>)
    ensures (((a + x1) + x2) + x3) + x4 == a + (x1 + (x2 + (x3 + (x4 + []))))
  {
    assert x4 + [] == x4;
  }

  lemma SectionOfRendered(x: Str)
    ensures Trim(Collect(Lines(x))) == Trim(x)
  {
    SectionIsTrimmedJoin(Lines(x));
    JoinSplitAll(x, NL);
  }

  /** Lines of four blocks, headers abstracted. */
  lemma FourBlockLines(pre: Str, h1: Str, b1: Str, h2: Str, b2: Str, h3: Str, b3: Str, h4: Str, b4: Str)
    requires NL !in h1 && NL !in h2 && NL !in h3 && NL !in h4
    ensures Lines(Block(Block(Block(Block(pre, h1, b1), h2, b2), h3, b3), h4, b4))
         == Lines(pre) + ([h1] + Lines(b1) + ([h2] + Lines(b2)
            + ([h3] + Lines(b3) + ([h4] + Lines(b4) + []))))
  {
    var r1 := Block(pre, h1, b1);
    var r2 := Block(r1, h2, b2);
    var r3 := Block(r2, h3, b3);
    LinesWithHeader(r3, h4, b4);
    LinesWithHeader(r2, h3, b3);
    LinesWithHeader(r1, h2, b2);
    LinesWithHeader(pre, h1, b1);
    Reassociate4(Lines(pre), [h1] + Lines(b1), [h2] + Lines(b2), [h3] + Lines(b3), [h4] + Lines(b4));
  }

  /** The lines of a rendered reply: the preamble's, then each header
      followed by its section's lines. */
  lemma RenderLines(pre: Str, p: Str, c: Str, t: Str, n: Str)
    ensures Lines(Render(pre, p, c, t, n))
         == Lines(pre) + (["PLAN:"] + Lines(p) + (["CODE:"] + Lines(c)
            + (["TESTS:"] + Lines(t) + (["NOTES:"] + Lines(n) + []))))
  {
    FourBlockLines(pre, "PLAN:", p, "CODE:", c, "TESTS:", t, "NOTES:", n);
  }

  /** The four headers, written exactly, open their sections. */
  lemma HeaderLiterals()
    ensures SectionForLine(Trim("PLAN:")) == Plan && SectionForLine(Trim("CODE:")) == Code
    ensures SectionForLine(Trim("TESTS:")) == Tests && SectionForLine(Trim("NOTES:")) == Notes
  {
    TrimNoop("PLAN:");
    TrimNoop("CODE:");
    TrimNoop("TESTS:");
    TrimNoop("NOTES:");
  }

  /** Routing four header-led blocks after a header-free preamble, with
      the headers abstracted. */
  lemma FourBlockRouted(pre: seq<Str>, h1: Str, l1: seq<Str>, h2: Str, l2: seq<Str>,
                        h3: Str, l3: seq<Str>, h4: Str, l4: seq<Str>, sec: Section)
    requires SectionForLine(Trim(h1)) == Plan && SectionForLine(Trim(h2)) == Code
    requires SectionForLine(Trim(h3)) == Tests && SectionForLine(Trim(h4)) == Notes
    requires forall k | 0 <= k < |pre| :: !IsHeader(pre[k])
    requires forall k | 0 <= k < |l1| :: !IsHeader(l1[k])
    requires forall k | 0 <= k < |l2| :: !IsHeader(l2[k])
    requires forall k | 0 <= k < |l3| :: !IsHeader(l3[k])
    requires forall k | 0 <= k < |l4| :: !IsHeader(l4[k])
    requires sec != Outside
    ensures Routed(Outside, pre + ([h1] + l1 + ([h2] + l2 + ([h3] + l3 + ([h4] + l4 + [])))), sec)
         == if sec == Plan then l1 else if sec == Code then l2 else if sec == Tests then l3 else l4
  {
    var tail4 := [h4] + l4 + [];
    var tail3 := [h3] + l3 + tail4;
    var tail2 := [h2] + l2 + tail3;
    var tail1 := [h1] + l1 + tail2;
    PreambleDiscarded(pre, tail1, sec);
    RoutedBlock(Outside, h1, Plan, l1, tail2, sec);
    RoutedBlock(Plan, h2, Code, l2, tail3, sec);
    RoutedBlock(Code, h3, Tests, l3, tail4, sec);
    RoutedBlock(Tests, h4, Notes, l4, [], sec);
  }

  /** The lines a rendered reply routes to each section are that
      section's own lines. */
  lemma RenderRouted(pre: Str, p: Str, c: Str, t: Str, n: Str, sec: Section)
    requires NoHeaderLines(pre) && NoHeaderLines(p) && NoHeaderLines(c)
    requires NoHeaderLines(t) && NoHeaderLines(n)
    requires sec != Outside
    ensures Routed(Outside, Lines(Render(pre, p, c, t, n)), sec)
         == if sec == Plan then Lines(p) else if sec == Code then Lines(c)
            else if sec == Tests then Lines(t) else Lines(n)
  {
    RenderLines(pre, p, c, t, n);
    HeaderLiterals();
    FourBlockRouted(Lines(pre), "PLAN:", Lines(p), "CODE:", Lines(c),
                    "TESTS:", Lines(t), "NOTES:", Lines(n), sec);
  }

  /** Parsing a reply laid out in the required format gives back each
      section's text, trimmed (CODE also fence-stripped). */
  lemma ParseRender(pre: Str, p: Str, c: Str, t: Str, n: Str)
    requires NoHeaderLines(pre) && NoHeaderLines(p) && NoHeaderLines(c)
    requires NoHeaderLines(t) && NoHeaderLines(n)
    ensures Sections(Some(Render(pre, p, c, t, n)))
         == AiResponse(Some(Trim(p)), StripCodeFences(Some(c)), Some(Trim(t)), Some(Trim(n)))
  {
    RenderSection(pre, p, c, t, n, Plan, p);
    RenderSection(pre, p, c, t, n, Code, c);
    RenderSection(pre, p, c, t, n, Tests, t);
    RenderSection(pre, p, c, t, n, Notes, n);
    TrimIdempotent(c);
  }

  lemma RenderSection(pre: Str, p: Str, c: Str, t: Str, n: Str, sec: Section, x: Str)
    requires NoHeaderLines(pre) && NoHeaderLines(p) && NoHeaderLines(c)
    requires NoHeaderLines(t) && NoHeaderLines(n)
    requires sec != Outside
    requires x == if sec == Plan then p else if sec == Code then c else if sec == Tests then t else n
    ensures SectionText(Render(pre, p, c, t, n), sec) == Trim(x)
  {
    RenderRouted(pre, p, c, t, n, sec);
    SectionOfRendered(x);
  }

  /** A fenced block as a model writes it. */
  function Fence(tag: Str, body: Str): Str {
    "```" + tag + "\n" + body + "\n```"
  }

  /** Stripping the fences of a fenced block gives its body, trimmed. */
  lemma StripFencedBlock(tag: Str, body: Str)
    requires '\n' !in tag
    ensures StripCodeFences(Some(Fence(tag, body))) == Some(Trim(body))
    ensures FencedInner(Fence(tag, body)) == Some(body + "\n")
  {
    var s := Fence(tag, body);
    TrimNoop(s);
    assert StartsWith(s, "```");
    var nl := 3 + |tag|;
    assert IsAt(s, "\n", nl);
    forall i | 0 <= i < nl ensures !IsAt(s, "\n", i) {
      if i >= 3 { assert s[i] == tag[i - 3]; }
      assert s[i] != '\n';
      assert s[i..i + 1][0] == s[i];
    }
    assert IndexOf(s, "\n") == nl;
    assert IsAt(s, "```", |s| - 3);
    assert LastIndexOf(s, "```") == |s| - 3;
    assert s[nl + 1..|s| - 3] == body + "\n";
    TrimAppendPad(body, "\n");
  }

  // ------------------------------------------------------ TESTS section

  /** The test description one line of a TESTS section contributes. */
  function TestItem(line: Str): Option<Str> {
    var trimmed := Trim(line);
    if trimmed == [] then None
    else
      var item := if StartsWith(trimmed, "-") then Trim(trimmed[1..]) else trimmed;
      if item == [] then None else Some(item)
  }

  function TestItems(lines: seq<Str>): seq<Str>
    decreases |lines|
  {
    if lines == [] then []
    else
      var init := TestItems(lines[..|lines| - 1]);
      match TestItem(lines[|lines| - 1])
      case Some(item) => init + [item]
      case None => init
  }

  /** The descriptions `parseTestsList` returns: none for a null section. */
  function TestsList(text: Option<Str>): seq<Str> {
    match text
    case None => []
    case Some(t) => TestItems(LinesNoTrailing(t))
  }

  /** `parseTestsList`: one description per non-blank line, in order. */
  method ParseTestsList(text: Option<Str>) returns (items: seq<Str>)
    ensures text.None? ==> items == []
    ensures text.Some? ==> items == TestItems(LinesNoTrailing(text.value))
    ensures items == TestsList(text)
  {
    items := [];
    if text.None? {
      return;
    }
    var lines := LinesNoTrailing(text.value);
    var i := 0;
    while i < |lines|
      invariant 0 <= i <= |lines|
      invariant items == TestItems(lines[..i])
    {
      assert lines[..i + 1][..i] == lines[..i];
      var trimmed := Trim(lines[i]);
      if trimmed != [] {
        if StartsWith(trimmed, "-") {
          trimmed := Trim(trimmed[1..]);
        }
        if trimmed != [] {
          items := items + [trimmed];
        }
      }
      i := i + 1;
    }
    assert lines[..i] == lines;
  }

  lemma {:induction false} TestItemsConcat(a: seq<Str>, b: seq<Str>)
    ensures TestItems(a + b) == TestItems(a) + TestItems(b)
    decreases |b|
  {
    if b == [] {
      assert a + b == a;
    } else {
      var b0 := b[..|b| - 1];
      assert (a + b)[..|a + b| - 1] == a + b0;
      TestItemsConcat(a, b0);
    }
  }

  /** Every description is non-empty and already trimmed. */
  lemma {:induction false} TestItemsTrimmed(lines: seq<Str>)
    ensures forall k | 0 <= k < |TestItems(lines)| :: TestItems(lines)[k] != [] && Trim(TestItems(lines)[k]) == TestItems(lines)[k]
    decreases |lines|
  {
    if lines != [] {
      TestItemsTrimmed(lines[..|lines| - 1]);
      var trimmed := Trim(lines[|lines| - 1]);
      TrimIdempotent(lines[|lines| - 1]);
      if trimmed != [] && StartsWith(trimmed, "-") {
        TrimIdempotent(trimmed[1..]);
      }
    }
  }

  /** A TESTS section written as one "- description" bullet per line. */
  function Bullets(descriptions: seq<Str>): (r: seq<Str>)
    ensures |r| == |descriptions|
  {
    seq(|descriptions|, k requires 0 <= k < |descriptions| => "- " + descriptions[k])
  }

  /** A well-formed test description: one trimmed, non-empty line. */
  predicate Description(d: Str) {
    d != [] && Trim(d) == d && NL !in d
  }

  lemma BulletItem(d: Str)
    requires Description(d)
    ensures TestItem("- " + d) == Some(d)
  {
    var line := "- " + d;
    TrimFacts(d);
    assert line[|line| - 1] == d[|d| - 1];
    TrimNoop(line);
    assert Trim(line)[1..] == " " + d + [];
    TrimPadded(" ", d, []);
  }

  /** Parsing a bulleted list of well-formed descriptions gives them back. */
  lemma ParseTestsListOfBullets(descriptions: seq<Str>)
    requires forall k | 0 <= k < |descriptions| :: Description(descriptions[k])
    ensures TestItems(LinesNoTrailing(Join(Bullets(descriptions), "\n"))) == descriptions
  {
    var bs := Bullets(descriptions);
    if descriptions == [] {
      assert LinesNoTrailing([]) == [[]];
      assert TestItems([[]]) == TestItems([]) == [];
      return;
    }
    forall k | 0 <= k < |bs| ensures NL !in bs[k] {
      assert bs[k] == "- " + descriptions[k];
    }
    SplitAllJoin(bs, NL);
    var text := Join(bs, "\n");
    if NL !in text {
      SplitAllNoSep(text, NL);
    }
    assert bs[|bs| - 1] != [];
    assert DropTrailingEmpty(bs) == bs;
    assert LinesNoTrailing(text) == bs;
    BulletsItems(descriptions);
  }

  lemma {:induction false} BulletsItems(descriptions: seq<Str>)
    requires forall k | 0 <= k < |descriptions| :: Description(descriptions[k])
    ensures TestItems(Bullets(descriptions)) == descriptions
    decreases |descriptions|
  {
    if descriptions != [] {
      var init := descriptions[..|descriptions| - 1];
      var d := descriptions[|descriptions| - 1];
      assert Bullets(descriptions) == Bullets(init) + ["- " + d];
      BulletsItems(init);
      BulletItem(d);
      assert descriptions == init + [d];
    }
  }
}

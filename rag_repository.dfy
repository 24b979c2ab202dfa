/** Retrieval of reference documents for chat: index files list entries,
    entries are scored against the query, sorted stably by descending score
    and cut to a limit, and content is read only from paths that stay under
    the docs directory. */
module RagRepository {
  import opened Wrappers
  import opened JavaText
  import opened Domain

  /** `RagEntry`: one index line. */
  datatype RagEntry = RagEntry(id: Str, description: Str, path: Str, group: Str)

  /** `RagDocument`: an entry with its content; the title is the description. */
  datatype RagDocument = RagDocument(id: Str, title: Str, content: Str)

  const SNIPPETS_INDEX: Str := "docs/examples/awk-snippets-index.md"
  const BOOK_INDEX: Str := "docs/book/learn.awk-index.md"

  /** The dash between id and description in an index line (U+2013). */
  const EN_DASH: char := '\U{2013}'

  // ------------------------------------------------ the index-line pattern
  //
  // `-\s+`([^`]+)`\s+–\s+(.*)\(([^)]+)\)`, searched with `find`: the
  // leftmost start that matches, and there the greedy choice for `(.*)`,
  // whose `.` stops at a line terminator.

  /** The regex class `\s`: space, TAB, LF, VT, FF and CR. */
  predicate IsRegexSpace(c: char) {
    c == ' ' || '\t' <= c <= '\r'
  }

  /** The end of the run of `\s` chars that starts at `i`. */
  function SpaceRunEnd(s: Str, i: nat): (r: nat)
    requires i <= |s|
    ensures i <= r <= |s|
    ensures forall k | i <= k < r :: IsRegexSpace(s[k])
    ensures r < |s| ==> !IsRegexSpace(s[r])
    decreases |s| - i
  {
    if i < |s| && IsRegexSpace(s[i]) then SpaceRunEnd(s, i + 1) else i
  }

  /** The first index at or after `i` that holds `c`, or `|s|`. */
  function NextOf(s: Str, i: nat, c: char): (r: nat)
    requires i <= |s|
    ensures i <= r <= |s|
    ensures forall k | i <= k < r :: s[k] != c
    ensures r < |s| ==> s[r] == c
    decreases |s| - i
  {
    if i == |s| || s[i] == c then i else NextOf(s, i + 1, c)
  }

  /** `\(([^)]+)\)` matches at `q`: an open parenthesis, at least one char
      other than ')', then ')'. */
  predicate PathGroupAt(s: Str, q: nat) {
    q < |s| && s[q] == '(' && q + 1 < NextOf(s, q + 1, ')') < |s|
  }

  /** The greedy `(.*)`: the last start in `[lo, hi)` where the path group
      matches. */
  function LastPathGroup(s: Str, lo: nat, hi: nat): (r: Option<nat>)
    requires lo <= hi <= |s|
    ensures r.Some? ==> lo <= r.value < hi && PathGroupAt(s, r.value)
    ensures r.Some? ==> forall q | r.value < q < hi :: !PathGroupAt(s, q)
    ensures r.None? ==> forall q | lo <= q < hi :: !PathGroupAt(s, q)
    decreases hi - lo
  {
    if hi == lo then None
    else if PathGroupAt(s, hi - 1) then Some(hi - 1)
    else LastPathGroup(s, lo, hi - 1)
  }

  /** The three groups of a match, untrimmed. */
  datatype IndexFields = IndexFields(id: Str, description: Str, path: Str)

  /** The match that starts at `p`, if there is one: a '-', then the
      stages below. Every quantifier of the pattern but `(.*)` meets a char
      it cannot consume, so only that one has a choice to make. */
  function MatchAt(line: Str, p: nat): Option<IndexFields>
    requires p <= |line|
  {
    if p == |line| || line[p] != '-' then None else AfterDash(line, p + 1)
  }

  /** `\s+` and the opening backtick. */
  function AfterDash(line: Str, i: nat): Option<IndexFields>
    requires i <= |line|
  {
    var a := SpaceRunEnd(line, i);
    if a == i || a == |line| || line[a] != '`' then None else IdGroup(line, a + 1)
  }

  /** `([^`]+)` and the closing backtick. */
  function IdGroup(line: Str, i: nat): Option<IndexFields>
    requires i <= |line|
  {
    var b := NextOf(line, i, '`');
    if b == i || b == |line| then None else AfterId(line, line[i..b], b + 1)
  }

  /** `\s+–`. */
  function AfterId(line: Str, id: Str, i: nat): Option<IndexFields>
    requires i <= |line|
  {
    var c := SpaceRunEnd(line, i);
    if c == i || c == |line| || line[c] != EN_DASH then None else AfterDashSign(line, id, c + 1)
  }

  /** `\s+(.*)\(([^)]+)\)`: `(.*)` ends before the first line terminator
      after the spaces, so the path group must open before it. */
  function AfterDashSign(line: Str, id: Str, i: nat): Option<IndexFields>
    requires i <= |line|
  {
    var d := SpaceRunEnd(line, i);
    if d == i then None
    else match LastPathGroup(line, d, LineEnd(line, d))
      case None => None
      case Some(q) => Some(IndexFields(id, line[d..q], line[q + 1..NextOf(line, q + 1, ')')]))
  }

  /** `Matcher.find` from `p`: the leftmost start that matches. */
  function FindFrom(line: Str, p: nat): (r: Option<IndexFields>)
    requires p <= |line|
    ensures r.None? ==> forall k | p <= k <= |line| :: MatchAt(line, k).None?
    decreases |line| - p
  {
    if p == |line| then None
    else match MatchAt(line, p)
      case Some(f) => Some(f)
      case None => FindFrom(line, p + 1)
  }

  /** A path an index may not name: it contains ".." or starts with '/'. */
  predicate Unsafe(path: Str) {
    Contains(path, "..") || StartsWith(path, "/")
  }

  /** One line of `parseIndex`: the trimmed groups of the first match, unless
      the path is unsafe. */
  function ParseLine(line: Str, group: Str): (r: Option<RagEntry>)
    ensures r.Some? ==> !Unsafe(r.value.path) && r.value.group == group
    ensures r.Some? ==> r.value.path == Trim(r.value.path) && r.value.id == Trim(r.value.id)
  {
    match FindFrom(line, 0)
    case None => None
    case Some(f) =>
      TrimIdempotent(f.id);
      TrimIdempotent(f.path);
      var entry := RagEntry(Trim(f.id), Trim(f.description), Trim(f.path), group);
      if Unsafe(entry.path) then None else Some(entry)
  }

  /** The line an index holds for an entry. */
  function IndexLine(id: Str, description: Str, path: Str): Str {
    "- `" + id + "` " + [EN_DASH] + " " + description + " (" + path + ")"
  }

  lemma NextOfIs(s: Str, i: nat, c: char, j: nat)
    requires i <= j < |s| && s[j] == c
    requires forall k | i <= k < j :: s[k] != c
    ensures NextOf(s, i, c) == j
  {
  }

  lemma SpaceRunEndIs(s: Str, i: nat, j: nat)
    requires i <= j <= |s|
    requires forall k | i <= k < j :: IsRegexSpace(s[k])
    requires j < |s| ==> !IsRegexSpace(s[j])
    ensures SpaceRunEnd(s, i) == j
  {
  }

  lemma {:induction false} LastPathGroupIs(s: Str, lo: nat, q: nat, hi: nat)
    requires lo <= q < hi <= |s| && PathGroupAt(s, q)
    requires forall k | q < k < hi :: s[k] != '('
    ensures LastPathGroup(s, lo, hi) == Some(q)
    decreases hi
  {
    if hi - 1 != q {
      LastPathGroupIs(s, lo, q, hi - 1);
    }
  }

  /** `line` is laid out as the index line of `id`, `description` and
      `path`. */
  predicate LaidOut(line: Str, id: Str, description: Str, path: Str) {
    var b := 3 + |id|;
    var q := b + 5 + |description|;
    |line| == q + |path| + 2
    && line[0] == '-' && line[1] == ' ' && line[2] == '`'
    && line[3..b] == id
    && line[b] == '`' && line[b + 1] == ' ' && line[b + 2] == EN_DASH && line[b + 3] == ' '
    && line[b + 4..q - 1] == description
    && line[q - 1] == ' ' && line[q] == '('
    && line[q + 1..q + 1 + |path|] == path
    && line[q + 1 + |path|] == ')'
  }

  lemma IndexLineLayout(id: Str, description: Str, path: Str)
    ensures LaidOut(IndexLine(id, description, path), id, description, path)
  {
    var line := IndexLine(id, description, path);
    assert line == "- `" + id + "` " + [EN_DASH] + " " + description + " (" + path + ")";
  }

  /** The stages up to the dash of a laid-out line. */
  lemma LayoutFront(line: Str, id: Str, description: Str, path: Str)
    requires id != [] && '`' !in id
    requires LaidOut(line, id, description, path)
    ensures MatchAt(line, 0) == AfterDashSign(line, id, 3 + |id| + 3)
  {
    var b := 3 + |id|;
    SpaceRunEndIs(line, 1, 2);
    NextOfIs(line, 3, '`', b);
    SpaceRunEndIs(line, b + 1, b + 2);
    assert AfterId(line, id, b + 1) == AfterDashSign(line, id, b + 3);
    assert IdGroup(line, 3) == AfterId(line, id, b + 1);
    assert AfterDash(line, 1) == IdGroup(line, 3);
  }

  /** Where the `\s+` after the dash ends on a laid-out line. */
  function DescriptionStart(id: Str, description: Str): nat {
    if description == [] then 3 + |id| + 5 else 3 + |id| + 4
  }

  lemma LayoutSpaces(line: Str, id: Str, description: Str, path: Str)
    requires description == [] || !IsRegexSpace(description[0])
    requires LaidOut(line, id, description, path)
    ensures SpaceRunEnd(line, 3 + |id| + 3) == DescriptionStart(id, description)
  {
    var b := 3 + |id|;
    if description != [] {
      assert line[b + 4] == description[0];
    }
    SpaceRunEndIs(line, b + 3, DescriptionStart(id, description));
  }

  lemma LayoutPath(line: Str, id: Str, description: Str, path: Str, hi: nat)
    requires path != [] && '(' !in path && ')' !in path
    requires LaidOut(line, id, description, path)
    requires 3 + |id| + 5 + |description| < hi <= |line|
    ensures var q := 3 + |id| + 5 + |description|;
      LastPathGroup(line, DescriptionStart(id, description), hi) == Some(q)
      && NextOf(line, q + 1, ')') == q + 1 + |path|
  {
    var q := 3 + |id| + 5 + |description|;
    NextOfIs(line, q + 1, ')', q + 1 + |path|);
    assert forall k | q < k < |line| :: line[k] != '(' by {
      forall k | q < k < |line| ensures line[k] != '(' {
        if k < q + 1 + |path| {
          assert line[k] == line[q + 1..q + 1 + |path|][k - q - 1];
        }
      }
    }
    LastPathGroupIs(line, DescriptionStart(id, description), q, hi);
  }

  /** On a laid-out line with a terminator-free description, `(.*)` can
      reach the '(' that opens the path and no further. */
  lemma LayoutLineEnd(line: Str, id: Str, description: Str, path: Str)
    requires forall k | 0 <= k < |description| :: !IsLineTerminator(description[k])
    requires LaidOut(line, id, description, path)
    ensures LineEnd(line, DescriptionStart(id, description)) > 3 + |id| + 5 + |description|
  {
    var q := 3 + |id| + 5 + |description|;
    var d := DescriptionStart(id, description);
    forall k | d <= k <= q ensures !IsLineTerminator(line[k]) {
      if k < q - 1 {
        assert line[k] == line[3 + |id| + 4..q - 1][k - (3 + |id| + 4)];
      }
    }
  }

  /** The description and path stages of a laid-out line. */
  lemma LayoutBack(line: Str, id: Str, description: Str, path: Str)
    requires description == [] || !IsRegexSpace(description[0])
    requires forall k | 0 <= k < |description| :: !IsLineTerminator(description[k])
    requires path != [] && '(' !in path && ')' !in path
    requires LaidOut(line, id, description, path)
    ensures AfterDashSign(line, id, 3 + |id| + 3)
         == Some(IndexFields(id, if description == [] then [] else description + " ", path))
  {
    var q := 3 + |id| + 5 + |description|;
    var d := DescriptionStart(id, description);
    LayoutSpaces(line, id, description, path);
    LayoutLineEnd(line, id, description, path);
    LayoutPath(line, id, description, path, LineEnd(line, d));
    LayoutDescription(line, id, description, path);
    assert line[q + 1..NextOf(line, q + 1, ')')] == path;
    FieldsAfterDash(line, id, 3 + |id| + 3, d, q);
  }

  /** The last stages once the space run, the last path group and the
      closing parenthesis are known. */
  lemma FieldsAfterDash(line: Str, id: Str, i: nat, d: nat, q: nat)
    requires i < d <= q < |line| && SpaceRunEnd(line, i) == d
    requires LastPathGroup(line, d, LineEnd(line, d)) == Some(q)
    ensures AfterDashSign(line, id, i) == Some(IndexFields(id, line[d..q], line[q + 1..NextOf(line, q + 1, ')')]))
  {
  }

  /** The description group of a laid-out line: the description and the
      space after it, or nothing. */
  lemma LayoutDescription(line: Str, id: Str, description: Str, path: Str)
    requires LaidOut(line, id, description, path)
    ensures line[DescriptionStart(id, description)..3 + |id| + 5 + |description|]
         == if description == [] then [] else description + " "
  {
    var q := 3 + |id| + 5 + |description|;
    if description != [] {
      assert line[3 + |id| + 4..q] == line[3 + |id| + 4..q - 1] + [line[q - 1]];
    }
  }

  /** An index line written from trimmed fields reads back as those fields:
      a backtick-free id, a description free of line terminators and a
      parenthesis-free path. */
  lemma IndexLineRoundTrip(id: Str, description: Str, path: Str)
    requires id != [] && Trim(id) == id && '`' !in id
    requires Trim(description) == description
    requires forall k | 0 <= k < |description| :: !IsLineTerminator(description[k])
    requires path != [] && Trim(path) == path && '(' !in path && ')' !in path
    ensures FindFrom(IndexLine(id, description, path), 0)
         == Some(IndexFields(id, if description == [] then [] else description + " ", path))
  {
    var line := IndexLine(id, description, path);
    IndexLineLayout(id, description, path);
    TrimFacts(description);
    LayoutFront(line, id, description, path);
    LayoutBack(line, id, description, path);
  }

  /** ... and so parses back to the entry it describes, when the path is
      safe. */
  lemma IndexLineParses(id: Str, description: Str, path: Str, group: Str)
    requires id != [] && Trim(id) == id && '`' !in id
    requires Trim(description) == description
    requires forall k | 0 <= k < |description| :: !IsLineTerminator(description[k])
    requires path != [] && Trim(path) == path && '(' !in path && ')' !in path
    requires !Unsafe(path)
    ensures ParseLine(IndexLine(id, description, path), group) == Some(RagEntry(id, description, path, group))
  {
    IndexLineRoundTrip(id, description, path);
    if description != [] {
      TrimAppendPad(description, " ");
    }
  }

  /** A line terminator inside the description stops `(.*)` short of the
      path group, so `find` fails and the line gives no entry. */
  lemma {:induction false} TerminatorSkipsLine()
    ensures ParseLine(IndexLine("a", "x\U{2028}y", "p"), "g") == None
  {
    var line := IndexLine("a", "x\U{2028}y", "p");
    IndexLineLayout("a", "x\U{2028}y", "p");
    assert line[4] == '`' && line[6] == EN_DASH && line[8] == 'x' && line[9] == '\U{2028}';
    SpaceRunEndIs(line, 1, 2);
    NextOfIs(line, 3, '`', 4);
    SpaceRunEndIs(line, 5, 6);
    SpaceRunEndIs(line, 7, 8);
    assert LineEnd(line, 8) == 9;
    assert !PathGroupAt(line, 8);
    assert LastPathGroup(line, 8, 9) == None;
    assert MatchAt(line, 0) == None;
    NoDashAfterStart(line);
    assert FindFrom(line, 0) == None;
  }

  /** `find` past the start of that line: no other char is a '-'. */
  lemma {:induction false} NoDashAfterStart(line: Str)
    requires line == IndexLine("a", "x\U{2028}y", "p")
    ensures FindFrom(line, 1) == None
  {
    IndexLineLayout("a", "x\U{2028}y", "p");
    forall k | 1 <= k < |line| ensures line[k] != '-' {
      assert line == "- `a` " + [EN_DASH] + " x\U{2028}y (p)";
    }
    NoDashNoMatch(line, 1);
  }

  lemma {:induction false} NoDashNoMatch(line: Str, p: nat)
    requires p <= |line|
    requires forall k | p <= k < |line| :: line[k] != '-'
    ensures FindFrom(line, p) == None
    decreases |line| - p
  {
    if p < |line| {
      NoDashNoMatch(line, p + 1);
    }
  }

  // ------------------------------------------------------------ parseIndex

  /** The entries of an index's lines, in order. */
  function IndexEntries(lines: seq<Str>, group: Str): (r: seq<RagEntry>)
    ensures |r| <= |lines|
    decreases |lines|
  {
    if lines == [] then []
    else
      IndexEntries(lines[..|lines| - 1], group)
      + match ParseLine(lines[|lines| - 1], group) case Some(e) => [e] case None => []
  }

  /** `parseIndex`: a missing index has no entries, an unreadable one is an
      error. */
  function ParsedIndex(fs: FileSystem, indexPath: Str, group: Str): Result<seq<RagEntry>, Str> {
    match FileAt(fs, indexPath)
    case Missing => Ok([])
    case Unreadable => Err(indexPath)
    case Readable(text) => Ok(IndexEntries(Lines(text), group))
  }

  method ParseIndex(fs: FileSystem, indexPath: Str, group: Str) returns (r: Result<seq<RagEntry>, Str>)
    ensures r == ParsedIndex(fs, indexPath, group)
  {
    var file := FileAt(fs, indexPath);
    if file.Missing? {
      return Ok([]);
    }
    if file.Unreadable? {
      return Err(indexPath);
    }
    var lines := Lines(file.text);
    var entries: seq<RagEntry> := [];
    var i := 0;
    while i < |lines|
      invariant 0 <= i <= |lines|
      invariant entries == IndexEntries(lines[..i], group)
    {
      assert lines[..i + 1][..i] == lines[..i];
      var m := FindFrom(lines[i], 0);
      if m.Some? {
        var id := Trim(m.value.id);
        var desc := Trim(m.value.description);
        var relPath := Trim(m.value.path);
        if !(Contains(relPath, "..") || StartsWith(relPath, "/")) {
          entries := entries + [RagEntry(id, desc, relPath, group)];
        }
      }
      i := i + 1;
    }
    assert lines[..i] == lines;
    return Ok(entries);
  }

  /** `listAllEntries`: the snippet entries, then the book entries. */
  function AllEntries(fs: FileSystem): Result<seq<RagEntry>, Str> {
    match ParsedIndex(fs, SNIPPETS_INDEX, "snippets")
    case Err(e) => Err(e)
    case Ok(snippets) =>
      match ParsedIndex(fs, BOOK_INDEX, "book")
      case Err(e) => Err(e)
      case Ok(book) => Ok(snippets + book)
  }

  method ListAllEntries(fs: FileSystem) returns (r: Result<seq<RagEntry>, Str>)
    ensures r == AllEntries(fs)
  {
    var snippets := ParseIndex(fs, SNIPPETS_INDEX, "snippets");
    if snippets.Err? {
      return Err(snippets.error);
    }
    var book := ParseIndex(fs, BOOK_INDEX, "book");
    if book.Err? {
      return Err(book.error);
    }
    return Ok(snippets.value + book.value);
  }

  // ----------------------------------------------------------- readContent
  //
  // A Unix path as `java.nio` sees it: absolute or not, and its names.

  datatype PathValue = PathValue(absolute: bool, names: seq<Str>)

  const DOT: Str := "."
  const DOT_DOT: Str := ".."

  /** The non-empty parts, in order: repeated and trailing slashes name
      nothing. */
  function NonEmpty(parts: seq<Str>): (r: seq<Str>)
    ensures forall x | x in r :: x in parts && x != []
    decreases |parts|
  {
    if parts == [] then []
    else (if parts[0] == [] then [] else [parts[0]]) + NonEmpty(parts[1..])
  }

  /** `Paths.get(s)`. */
  function ParsePath(s: Str): PathValue {
    PathValue(StartsWith(s, "/"), NonEmpty(SplitAll(s, '/')))
  }

  /** `Path.resolve`: an absolute path replaces the base. */
  function ResolvePath(base: PathValue, other: PathValue): PathValue {
    if other.absolute then other else PathValue(base.absolute, base.names + other.names)
  }

  /** One name of `Path.normalize`: "." goes, ".." cancels the name before
      it, stays at the head of a relative path and goes at the root of an
      absolute one. */
  function NormalizeStep(absolute: bool, kept: seq<Str>, name: Str): seq<Str> {
    if name == DOT then kept
    else if name == DOT_DOT then
      if kept != [] && kept[|kept| - 1] != DOT_DOT then kept[..|kept| - 1]
      else if absolute then kept
      else kept + [DOT_DOT]
    else kept + [name]
  }

  /** Every ".." of a normalised path comes before all its other names, and
      an absolute one has none. */
  predicate ClimbsFirst(absolute: bool, names: seq<Str>) {
    (forall i, j | 0 <= i <= j < |names| && names[j] == DOT_DOT :: names[i] == DOT_DOT)
    && (absolute ==> DOT_DOT !in names)
    && DOT !in names
  }

  function NormalizeNames(absolute: bool, names: seq<Str>): (r: seq<Str>)
    ensures ClimbsFirst(absolute, r)
    decreases |names|
  {
    if names == [] then []
    else NormalizeStep(absolute, NormalizeNames(absolute, names[..|names| - 1]), names[|names| - 1])
  }

  /** `Path.normalize`. */
  function Normalize(p: PathValue): PathValue {
    PathValue(p.absolute, NormalizeNames(p.absolute, p.names))
  }

  /** `Path.startsWith`: name by name. */
  predicate PathStartsWith(p: PathValue, prefix: PathValue) {
    p.absolute == prefix.absolute && |prefix.names| <= |p.names| && p.names[..|prefix.names|] == prefix.names
  }

  /** The text of a path, as the file system is keyed. */
  function PathText(p: PathValue): Str {
    (if p.absolute then "/" else "") + Join(p.names, "/")
  }

  const DOCS: Str := "docs"

  /** The directory an entry's path is read under. */
  function BaseFor(path: Str): PathValue {
    if StartsWith(path, "snippets/") then PathValue(false, [DOCS, "examples"])
    else if StartsWith(path, "learn.awk/") then PathValue(false, [DOCS, "book"])
    else PathValue(false, [DOCS])
  }

  /** The normalised file an entry's path names. */
  function Target(path: Str): PathValue {
    Normalize(ResolvePath(BaseFor(path), ParsePath(path)))
  }

  /** The path check of `readContent`. */
  predicate Escapes(path: Str) {
    !PathStartsWith(Target(path), Normalize(BaseFor(path)))
  }

  /** `readContent`: an escaping path fails before anything is read; a
      missing or unreadable file fails with its path. */
  function ReadContent(fs: FileSystem, entry: RagEntry): (r: Result<Str, Str>)
    ensures Escapes(entry.path) ==> r == Err("RAG path escapes docs: " + entry.path)
    ensures r.Ok? ==> FileAt(fs, PathText(Target(entry.path))) == Readable(r.value)
  {
    if Escapes(entry.path) then Err("RAG path escapes docs: " + entry.path)
    else match FileAt(fs, PathText(Target(entry.path)))
      case Readable(text) => Ok(text)
      case _ => Err(PathText(Target(entry.path)))
  }

  /** Names that normalising leaves alone. */
  lemma PlainNamesAreNormal(names: seq<Str>)
    requires |names| <= 2
    requires forall k | 0 <= k < |names| :: names[k] != DOT && names[k] != DOT_DOT
    ensures NormalizeNames(false, names) == names
  {
    if |names| > 0 {
      assert NormalizeNames(false, names[..0]) == [];
      assert NormalizeNames(false, names[..1]) == [names[0]];
      if |names| == 2 {
        assert names[..1] == [names[0]];
        assert NormalizeNames(false, names) == [names[0]] + [names[1]];
      }
    }
  }

  lemma BaseIsNormal(path: Str)
    ensures Normalize(BaseFor(path)) == BaseFor(path)
  {
    var names := BaseFor(path).names;
    assert names[0] == DOCS;
    assert |names| == 2 ==> names[1] == "examples" || names[1] == "book";
    PlainNamesAreNormal(names);
  }

  /** A read never leaves its base: the target is the base followed by
      names none of which is ".." or ".". */
  lemma StaysUnderBase(path: Str)
    requires !Escapes(path)
    ensures var t := Target(path);
      var b := BaseFor(path).names;
      !t.absolute && |b| <= |t.names| && t.names[..|b|] == b
      && DOT_DOT !in t.names[|b|..] && DOT !in t.names[|b|..]
  {
    BaseIsNormal(path);
    var t := Target(path).names;
    var b := BaseFor(path).names;
    assert t[0] == b[0] == DOCS;
  }

  /** What normalising leaves of names that hold no "..": the names other
      than ".". */
  function WithoutDots(names: seq<Str>): seq<Str>
    decreases |names|
  {
    if names == [] then []
    else WithoutDots(names[..|names| - 1]) + (if names[|names| - 1] == DOT then [] else [names[|names| - 1]])
  }

  lemma {:induction false} NormalizeWithoutClimbing(absolute: bool, front: seq<Str>, names: seq<Str>)
    requires DOT_DOT !in names
    ensures NormalizeNames(absolute, front + names) == NormalizeNames(absolute, front) + WithoutDots(names)
    decreases |names|
  {
    if names == [] {
      assert front + names == front;
    } else {
      var init := names[..|names| - 1];
      var last := names[|names| - 1];
      assert last in names;
      assert DOT_DOT !in init by {
        assert forall k | 0 <= k < |init| :: init[k] == names[k];
      }
      NormalizeWithoutClimbing(absolute, front, init);
      var kept := NormalizeNames(absolute, front + init);
      assert (front + names)[..|front + names| - 1] == front + init;
      assert (front + names)[|front + names| - 1] == last;
      assert NormalizeNames(absolute, front + names) == NormalizeStep(absolute, kept, last);
      var added: seq<Str> := if last == DOT then [] else [last];
      assert NormalizeStep(absolute, kept, last) == kept + added;
      assert WithoutDots(names) == WithoutDots(init) + added;
    }
  }

  /** Each part of a join occurs in it. */
  lemma {:induction false} PartOccurs(parts: seq<Str>, sep: Str, k: nat) returns (i: nat)
    requires k < |parts|
    ensures IsAt(Join(parts, sep), parts[k], i)
    decreases |parts|
  {
    var whole := Join(parts, sep);
    if |parts| == 1 {
      i := 0;
    } else if k == 0 {
      i := 0;
      assert whole == parts[0] + (sep + Join(parts[1..], sep));
    } else {
      var j := PartOccurs(parts[1..], sep, k - 1);
      i := |parts[0]| + |sep| + j;
      assert whole == (parts[0] + sep) + Join(parts[1..], sep);
      assert whole[i..i + |parts[k]|] == Join(parts[1..], sep)[j..j + |parts[k]|];
    }
  }

  /** A path that neither starts with '/' nor contains ".." names nothing
      that climbs. */
  lemma PlainNames(path: Str)
    requires !Contains(path, DOT_DOT)
    ensures DOT_DOT !in ParsePath(path).names
  {
    var parts := SplitAll(path, '/');
    if DOT_DOT in ParsePath(path).names {
      assert DOT_DOT in parts;
      var k :| 0 <= k < |parts| && parts[k] == DOT_DOT;
      JoinSplitAll(path, '/');
      var i := PartOccurs(parts, "/", k);
    }
  }

  /** A relative path without ".." is never refused. */
  lemma PlainPathStaysInside(path: Str)
    requires !StartsWith(path, "/") && !Contains(path, DOT_DOT)
    ensures !Escapes(path)
  {
    PlainNames(path);
    var base := BaseFor(path);
    var names := ParsePath(path).names;
    BaseIsNormal(path);
    NormalizeWithoutClimbing(false, base.names, names);
    PrefixKept(base.names, WithoutDots(names));
  }

  lemma PrefixKept(front: seq<Str>, back: seq<Str>)
    ensures |front| <= |front + back| && (front + back)[..|front|] == front
  {
  }

  /** Every entry an index yields passes the path check. */
  lemma {:induction false} IndexedPathsStayInside(lines: seq<Str>, group: Str)
    ensures forall e | e in IndexEntries(lines, group) :: !Escapes(e.path)
    decreases |lines|
  {
    if lines != [] {
      IndexedPathsStayInside(lines[..|lines| - 1], group);
      match ParseLine(lines[|lines| - 1], group)
      case Some(e) => PlainPathStaysInside(e.path);
      case None =>
    }
  }

  /** An absolute path is refused. */
  lemma AbsolutePathEscapes(path: Str)
    requires StartsWith(path, "/")
    ensures Escapes(path)
  {
    BaseIsNormal(path);
  }

  /** "../name" climbs out of the docs directory, unless the name leads
      straight back into it. */
  lemma ParentPathEscapes(name: Str)
    requires name != [] && '/' !in name && name != DOT && name != DOT_DOT && name != DOCS
    ensures Escapes(DOT_DOT + "/" + name)
  {
    var path := DOT_DOT + "/" + name;
    assert path == DOT_DOT + ['/'] + name;
    assert !StartsWith(path, "/") && !StartsWith(path, "snippets/") && !StartsWith(path, "learn.awk/") by {
      assert path[0] == '.';
    }
    SplitAllCons(DOT_DOT, '/', name);
    SplitAllNoSep(name, '/');
    var parts := [DOT_DOT, name];
    assert parts[1..][1..] == [];
    assert NonEmpty(parts) == [DOT_DOT] + NonEmpty(parts[1..]);
    assert ParsePath(path).names == [DOT_DOT, name];
    var all := [DOCS, DOT_DOT, name];
    assert ResolvePath(BaseFor(path), ParsePath(path)).names == all;
    assert all[..2][..1] == [DOCS] && all[..1][..0] == [];
    assert NormalizeNames(false, all[..1]) == [DOCS];
    assert NormalizeNames(false, all[..2]) == [];
    assert Target(path).names == [name];
    BaseIsNormal(path);
  }

  // ------------------------------------------------------------- scoring

  /** A char of the regex class `\w`. */
  predicate IsWordChar(c: char) {
    'a' <= c <= 'z' || 'A' <= c <= 'Z' || '0' <= c <= '9' || c == '_'
  }

  predicate IsWord(t: Str) {
    t != [] && forall j | 0 <= j < |t| :: IsWordChar(t[j])
  }

  /** The end of the run of word chars that starts at `i`. */
  function WordRunEnd(s: Str, i: nat): (r: nat)
    requires i <= |s|
    ensures i <= r <= |s|
    ensures forall k | i <= k < r :: IsWordChar(s[k])
    ensures r < |s| ==> !IsWordChar(s[r])
    decreases |s| - i
  {
    if i < |s| && IsWordChar(s[i]) then WordRunEnd(s, i + 1) else i
  }

  /** The non-empty fields of `split("\\W+")` from `i` on: the maximal runs
      of word chars. */
  function TokensFrom(s: Str, i: nat): (r: seq<Str>)
    requires i <= |s|
    ensures forall k | 0 <= k < |r| :: IsWord(r[k])
    decreases |s| - i
  {
    if i == |s| then []
    else if !IsWordChar(s[i]) then TokensFrom(s, i + 1)
    else
      var e := WordRunEnd(s, i);
      [s[i..e]] + TokensFrom(s, e)
  }

  /** The query tokens: the lower-cased query split on non-word runs. */
  function Tokens(query: Str): seq<Str> {
    TokensFrom(Lower(query), 0)
  }

  /** Tokenising looks only forward: a prefix changes nothing. */
  lemma {:induction false} TokensFromShift(pre: Str, s: Str, i: nat)
    requires i <= |s|
    ensures TokensFrom(pre + s, |pre| + i) == TokensFrom(s, i)
    decreases |s| - i
  {
    var t := pre + s;
    if i < |s| {
      assert t[|pre| + i] == s[i];
      if IsWordChar(s[i]) {
        var e := WordRunEnd(s, i);
        WordRunShift(pre, s, i);
        assert t[|pre| + i..|pre| + e] == s[i..e];
        if e < |s| {
          TokensFromShift(pre, s, e);
        }
      } else {
        TokensFromShift(pre, s, i + 1);
      }
    }
  }

  lemma {:induction false} WordRunShift(pre: Str, s: Str, i: nat)
    requires i <= |s|
    ensures WordRunEnd(pre + s, |pre| + i) == |pre| + WordRunEnd(s, i)
    decreases |s| - i
  {
    if i < |s| {
      assert (pre + s)[|pre| + i] == s[i];
      if IsWordChar(s[i]) {
        WordRunShift(pre, s, i + 1);
      }
    }
  }

  /** Words joined by single spaces tokenise back into those words. */
  lemma {:induction false} TokensOfJoinedWords(words: seq<Str>)
    requires forall k | 0 <= k < |words| :: IsWord(words[k])
    ensures TokensFrom(Join(words, " "), 0) == words
    decreases |words|
  {
    if words != [] {
      var w := words[0];
      if |words| == 1 {
        assert Join(words, " ") == w;
        TokensWord(w);
      } else {
        var tail := Join(words[1..], " ");
        assert Join(words, " ") == w + " " + tail;
        TokensOfJoinedWords(words[1..]);
        TokensWordSpace(w, tail);
        assert [w] + words[1..] == words;
      }
    }
  }

  /** A single word is its only token. */
  lemma TokensWord(w: Str)
    requires IsWord(w)
    ensures TokensFrom(w, 0) == [w]
  {
    WordRunAll(w, w);
    assert w[0..|w|] == w;
  }

  /** A word and a space in front of a text add that word in front of the
      text's tokens. */
  lemma TokensWordSpace(w: Str, tail: Str)
    requires IsWord(w)
    ensures TokensFrom(w + " " + tail, 0) == [w] + TokensFrom(tail, 0)
  {
    var s := w + " " + tail;
    assert forall k | 0 <= k < |w| :: s[k] == w[k];
    assert s[|w|] == ' ';
    WordRunAll(s, w);
    assert s[0..|w|] == w;
    assert s == (w + " ") + tail;
    TokensFromShift(w + " ", tail, 0);
  }

  /** The run of a word that starts a text ends where the word does, when
      a non-word char or the end follows. */
  lemma WordRunAll(s: Str, w: Str)
    requires IsWord(w) && |w| <= |s|
    requires forall k | 0 <= k < |w| :: s[k] == w[k]
    requires |w| < |s| ==> !IsWordChar(s[|w|])
    ensures WordRunEnd(s, 0) == |w|
  {
    WordRunFrom(s, 0, |w|);
  }

  lemma {:induction false} WordRunFrom(s: Str, i: nat, j: nat)
    requires i <= j <= |s|
    requires forall k | i <= k < j :: IsWordChar(s[k])
    requires j < |s| ==> !IsWordChar(s[j])
    ensures WordRunEnd(s, i) == j
    decreases j - i
  {
    if i < j {
      WordRunFrom(s, i + 1, j);
    }
  }

  /** The text `score` searches: id and description, lower-cased. */
  function Hay(entry: RagEntry): Str {
    Lower(entry.id + " " + entry.description)
  }

  /** How many of the tokens, counted with repeats, occur in `hay`; empty
      tokens count for nothing. */
  function MatchCount(hay: Str, tokens: seq<Str>): (r: nat)
    ensures r <= |tokens|
    decreases |tokens|
  {
    if tokens == [] then 0
    else
      var t := tokens[|tokens| - 1];
      MatchCount(hay, tokens[..|tokens| - 1]) + (if t != [] && Contains(hay, t) then 1 else 0)
  }

  /** `score`. */
  function Score(entry: RagEntry, tokens: seq<Str>): nat {
    MatchCount(Hay(entry), tokens)
  }

  method ScoreEntry(entry: RagEntry, tokens: seq<Str>) returns (score: int)
    ensures score == Score(entry, tokens)
  {
    score := 0;
    var hay := Lower(entry.id + " " + entry.description);
    var i := 0;
    while i < |tokens|
      invariant 0 <= i <= |tokens|
      invariant score == MatchCount(hay, tokens[..i])
    {
      assert tokens[..i + 1][..i] == tokens[..i];
      var t := tokens[i];
      if t != [] && Contains(hay, t) {
        score := score + 1;
      }
      i := i + 1;
    }
    assert tokens[..i] == tokens;
  }

  lemma {:induction false} MatchCountConcat(hay: Str, a: seq<Str>, b: seq<Str>)
    ensures MatchCount(hay, a + b) == MatchCount(hay, a) + MatchCount(hay, b)
    decreases |b|
  {
    if b == [] {
      assert a + b == a;
    } else {
      assert (a + b)[..|a + b| - 1] == a + b[..|b| - 1];
      MatchCountConcat(hay, a, b[..|b| - 1]);
    }
  }

  /** A repeated query counts each match again. */
  lemma RepeatedTokensCountTwice(entry: RagEntry, tokens: seq<Str>)
    ensures Score(entry, tokens + tokens) == 2 * Score(entry, tokens)
  {
    MatchCountConcat(Hay(entry), tokens, tokens);
  }

  /** A score counts exactly the tokens that occur: all of them when every
      token occurs, none when none does. */
  lemma {:induction false} ScoreBounds(entry: RagEntry, tokens: seq<Str>)
    ensures (forall k | 0 <= k < |tokens| :: tokens[k] != [] && Contains(Hay(entry), tokens[k]))
            ==> Score(entry, tokens) == |tokens|
    ensures (forall k | 0 <= k < |tokens| :: !Contains(Hay(entry), tokens[k])) ==> Score(entry, tokens) == 0
    decreases |tokens|
  {
    if tokens != [] {
      ScoreBounds(entry, tokens[..|tokens| - 1]);
    }
  }

  // -------------------------------------------- stable sort by descending score

  /** An entry with its score, as the comparator sees it. */
  datatype Ranked = Ranked(entry: RagEntry, score: int)

  predicate Descending(s: seq<Ranked>) {
    forall i, j | 0 <= i < j < |s| :: s[i].score >= s[j].score
  }

  /** The elements of `s` with score `v`, in order. */
  function WithScore(s: seq<Ranked>, v: int): seq<Ranked>
    decreases |s|
  {
    if s == [] then [] else (if s[0].score == v then [s[0]] else []) + WithScore(s[1..], v)
  }

  /** `x` goes after every element that scores at least as much. */
  function InsertRanked(sorted: seq<Ranked>, x: Ranked): seq<Ranked>
    decreases |sorted|
  {
    if sorted == [] || sorted[0].score < x.score then [x] + sorted
    else [sorted[0]] + InsertRanked(sorted[1..], x)
  }

  /** `List.sort` with `comparingInt(e -> -score(e))`: a stable sort by
      descending score. */
  function SortByScore(s: seq<Ranked>): seq<Ranked>
    decreases |s|
  {
    if s == [] then [] else InsertRanked(SortByScore(s[..|s| - 1]), s[|s| - 1])
  }

  lemma {:induction false} WithScoreNone(s: seq<Ranked>, v: int)
    requires forall k | 0 <= k < |s| :: s[k].score < v
    ensures WithScore(s, v) == []
    decreases |s|
  {
    if s != [] {
      WithScoreNone(s[1..], v);
    }
  }

  lemma {:induction false} InsertRankedPermutes(sorted: seq<Ranked>, x: Ranked)
    ensures multiset(InsertRanked(sorted, x)) == multiset(sorted) + multiset{x}
    decreases |sorted|
  {
    if sorted != [] && sorted[0].score >= x.score {
      InsertRankedPermutes(sorted[1..], x);
      assert sorted == [sorted[0]] + sorted[1..];
    }
  }

  lemma {:induction false} InsertRankedDescends(sorted: seq<Ranked>, x: Ranked)
    requires Descending(sorted)
    ensures Descending(InsertRanked(sorted, x))
    decreases |sorted|
  {
    if sorted != [] && sorted[0].score >= x.score {
      var rest := InsertRanked(sorted[1..], x);
      InsertRankedDescends(sorted[1..], x);
      InsertRankedPermutes(sorted[1..], x);
      forall k | 0 <= k < |rest| ensures sorted[0].score >= rest[k].score {
        assert rest[k] in multiset(rest);
        assert rest[k] in multiset(sorted[1..]) + multiset{x};
      }
    }
  }

  lemma {:induction false} InsertRankedKeepsTies(sorted: seq<Ranked>, x: Ranked, v: int)
    requires Descending(sorted)
    ensures WithScore(InsertRanked(sorted, x), v) == WithScore(sorted, v) + (if x.score == v then [x] else [])
    decreases |sorted|
  {
    var r := InsertRanked(sorted, x);
    if sorted == [] || sorted[0].score < x.score {
      assert r[1..] == sorted;
      if x.score == v {
        WithScoreNone(sorted, v);
      }
    } else {
      InsertRankedKeepsTies(sorted[1..], x, v);
      assert r[1..] == InsertRanked(sorted[1..], x);
    }
  }

  lemma InsertRankedFacts(sorted: seq<Ranked>, x: Ranked)
    requires Descending(sorted)
    ensures var r := InsertRanked(sorted, x);
      Descending(r) && multiset(r) == multiset(sorted) + multiset{x}
      && forall v :: WithScore(r, v) == WithScore(sorted, v) + (if x.score == v then [x] else [])
  {
    InsertRankedPermutes(sorted, x);
    InsertRankedDescends(sorted, x);
    forall v ensures WithScore(InsertRanked(sorted, x), v) == WithScore(sorted, v) + (if x.score == v then [x] else []) {
      InsertRankedKeepsTies(sorted, x, v);
    }
  }

  /** The sort yields descending scores, is a permutation, and keeps equal
      scores in their original order. */
  lemma {:induction false} SortByScoreFacts(s: seq<Ranked>)
    ensures var r := SortByScore(s);
      Descending(r) && multiset(r) == multiset(s)
      && forall v :: WithScore(r, v) == WithScore(s, v)
    decreases |s|
  {
    if s != [] {
      var front := s[..|s| - 1];
      var x := s[|s| - 1];
      SortByScoreFacts(front);
      InsertRankedFacts(SortByScore(front), x);
      assert s == front + [x];
      forall v ensures WithScore(s, v) == WithScore(front, v) + (if x.score == v then [x] else []) {
        WithScoreSnoc(front, x, v);
      }
    }
  }

  lemma {:induction false} WithScoreSnoc(s: seq<Ranked>, x: Ranked, v: int)
    ensures WithScore(s + [x], v) == WithScore(s, v) + (if x.score == v then [x] else [])
    decreases |s|
  {
    var last: seq<Ranked> := if x.score == v then [x] else [];
    if s == [] {
      assert [x][1..] == [];
      assert s + [x] == [x];
    } else {
      var head: seq<Ranked> := if s[0].score == v then [s[0]] else [];
      assert (s + [x])[0] == s[0];
      assert (s + [x])[1..] == s[1..] + [x];
      WithScoreSnoc(s[1..], x, v);
      calc {
        WithScore(s + [x], v);
        head + WithScore(s[1..] + [x], v);
        head + (WithScore(s[1..], v) + last);
        (head + WithScore(s[1..], v)) + last;
        WithScore(s, v) + last;
      }
    }
  }

  // ------------------------------------------------ findRelevant, searchForChat

  /** Each entry with its score against the tokens. */
  function Rank(entries: seq<RagEntry>, tokens: seq<Str>): (r: seq<Ranked>)
    ensures |r| == |entries|
    ensures forall k | 0 <= k < |r| :: r[k] == Ranked(entries[k], Score(entries[k], tokens))
  {
    seq(|entries|, k requires 0 <= k < |entries| => Ranked(entries[k], Score(entries[k], tokens)))
  }

  function EntriesOf(ranked: seq<Ranked>): (r: seq<RagEntry>)
    ensures |r| == |ranked|
    ensures forall k | 0 <= k < |r| :: r[k] == ranked[k].entry
  {
    seq(|ranked|, k requires 0 <= k < |ranked| => ranked[k].entry)
  }

  /** What `subList(0, limit)` throws for a negative limit. */
  function SubListError(limit: int): Str {
    "fromIndex(0) > toIndex(" + IntToString(limit) + ")"
  }

  /** The sorted, scored entries for a query. */
  function Ranking(entries: seq<RagEntry>, query: Str): seq<Ranked> {
    SortByScore(Rank(entries, Tokens(query)))
  }

  /** `findRelevant`: a null query finds nothing; otherwise the entries
      sorted by descending score, cut to `limit`. A negative limit fails as
      `subList` does. */
  function Relevant(fs: FileSystem, query: Option<Str>, limit: int): (r: Result<seq<RagEntry>, Str>)
    ensures query.None? ==> r == Ok([])
    ensures r.Ok? && query.Some? ==> |r.value| <= limit
  {
    if query.None? then Ok([])
    else match AllEntries(fs)
      case Err(e) => Err(e)
      case Ok(entries) =>
        var sorted := EntriesOf(Ranking(entries, query.value));
        if |sorted| <= limit then Ok(sorted)
        else if limit < 0 then Err(SubListError(limit))
        else Ok(sorted[..limit])
  }

  method FindRelevant(fs: FileSystem, query: Option<Str>, limit: int) returns (r: Result<seq<RagEntry>, Str>)
    ensures r == Relevant(fs, query, limit)
  {
    if query.None? {
      return Ok([]);
    }
    var tokens := Tokens(query.value);
    var listed := ListAllEntries(fs);
    if listed.Err? {
      return Err(listed.error);
    }
    var ranked := RankEntries(listed.value, tokens);
    var sorted := EntriesOf(SortByScore(ranked));
    if |sorted| > limit {
      if limit < 0 {
        return Err(SubListError(limit));
      }
      sorted := sorted[..limit];
    }
    return Ok(sorted);
  }

  /** The scoring loop of `findRelevant`. */
  method RankEntries(entries: seq<RagEntry>, tokens: seq<Str>) returns (ranked: seq<Ranked>)
    ensures ranked == Rank(entries, tokens)
  {
    ranked := [];
    var i := 0;
    while i < |entries|
      invariant 0 <= i <= |entries|
      invariant ranked == Rank(entries[..i], tokens)
    {
      var score := ScoreEntry(entries[i], tokens);
      ranked := ranked + [Ranked(entries[i], score)];
      i := i + 1;
    }
    assert entries[..i] == entries;
  }

  /** What `findRelevant` returns is the best-scoring part of the ranking:
      the first `n` entries of a descending, stable permutation of the
      scored entries, and nothing left out scores higher than anything
      kept. */
  lemma RelevantIsTop(fs: FileSystem, query: Str, limit: int)
    requires Relevant(fs, Some(query), limit).Ok?
    ensures var entries := AllEntries(fs).value;
      var ranking := Ranking(entries, query);
      var found := Relevant(fs, Some(query), limit).value;
      var n := |found|;
      n == (if |entries| <= limit then |entries| else limit)
      && found == EntriesOf(ranking[..n])
      && multiset(ranking) == multiset(Rank(entries, Tokens(query)))
      && (forall v :: WithScore(ranking, v) == WithScore(Rank(entries, Tokens(query)), v))
      && (forall i, j | 0 <= i < n <= j < |ranking| :: ranking[i].score >= ranking[j].score)
  {
    var entries := AllEntries(fs).value;
    var ranking := Ranking(entries, query);
    SortByScoreFacts(Rank(entries, Tokens(query)));
    assert |ranking| == |entries| by {
      assert |multiset(ranking)| == |multiset(Rank(entries, Tokens(query)))|;
    }
  }

  /** `readContent` for each entry, in order; the first failure ends it. */
  function Documents(fs: FileSystem, entries: seq<RagEntry>): (r: Result<seq<RagDocument>, Str>)
    decreases |entries|
  {
    if entries == [] then Ok([])
    else
      var e := entries[|entries| - 1];
      match Documents(fs, entries[..|entries| - 1])
      case Err(err) => Err(err)
      case Ok(docs) =>
        match ReadContent(fs, e)
        case Err(err) => Err(err)
        case Ok(content) => Ok(docs + [RagDocument(e.id, e.description, content)])
  }

  /** One document per entry, in order, titled by its description; or the
      failure of one of the reads. */
  lemma {:induction false} DocumentsFacts(fs: FileSystem, entries: seq<RagEntry>)
    ensures var r := Documents(fs, entries);
      (r.Ok? ==>
         |r.value| == |entries|
         && forall k | 0 <= k < |entries| ::
              ReadContent(fs, entries[k]).Ok?
              && r.value[k] == RagDocument(entries[k].id, entries[k].description, ReadContent(fs, entries[k]).value))
      && (r.Err? ==> exists k | 0 <= k < |entries| :: ReadContent(fs, entries[k]) == Err(r.error))
    decreases |entries|
  {
    if entries != [] {
      var front := entries[..|entries| - 1];
      DocumentsFacts(fs, front);
      assert forall k | 0 <= k < |front| :: entries[k] == front[k];
    }
  }

  /** Once reading fails, the rest of the entries change nothing. */
  lemma {:induction false} DocumentsFailFirst(fs: FileSystem, entries: seq<RagEntry>, i: nat)
    requires i <= |entries| && Documents(fs, entries[..i]).Err?
    ensures Documents(fs, entries) == Documents(fs, entries[..i])
    decreases |entries| - i
  {
    if i < |entries| {
      assert entries[..i + 1][..i] == entries[..i];
      DocumentsFailFirst(fs, entries, i + 1);
    } else {
      assert entries[..i] == entries;
    }
  }

  /** One more entry: its document is added, or its failure ends the
      reading. */
  lemma DocumentsSnoc(fs: FileSystem, entries: seq<RagEntry>, i: nat, docs: seq<RagDocument>)
    requires i < |entries| && Documents(fs, entries[..i]) == Ok(docs)
    ensures ReadContent(fs, entries[i]).Err? ==> Documents(fs, entries) == Err(ReadContent(fs, entries[i]).error)
    ensures ReadContent(fs, entries[i]).Ok? ==>
      Documents(fs, entries[..i + 1])
      == Ok(docs + [RagDocument(entries[i].id, entries[i].description, ReadContent(fs, entries[i]).value)])
  {
    assert entries[..i + 1][..i] == entries[..i];
    assert entries[..i + 1][i] == entries[i];
    if ReadContent(fs, entries[i]).Err? {
      DocumentsFailFirst(fs, entries, i + 1);
    }
  }

  /** `searchForChat`: the documents of the relevant entries. */
  function Search(fs: FileSystem, query: Option<Str>, limit: int): Result<seq<RagDocument>, Str> {
    match Relevant(fs, query, limit)
    case Err(e) => Err(e)
    case Ok(top) => Documents(fs, top)
  }

  method SearchForChat(fs: FileSystem, query: Option<Str>, limit: int) returns (r: Result<seq<RagDocument>, Str>)
    ensures r == Search(fs, query, limit)
  {
    var found := FindRelevant(fs, query, limit);
    if found.Err? {
      return Err(found.error);
    }
    r := ReadDocuments(fs, found.value);
  }

  /** The reading loop of `searchForChat`. */
  method ReadDocuments(fs: FileSystem, top: seq<RagEntry>) returns (r: Result<seq<RagDocument>, Str>)
    ensures r == Documents(fs, top)
  {
    var docs: seq<RagDocument> := [];
    var i := 0;
    while i < |top|
      invariant 0 <= i <= |top|
      invariant Documents(fs, top[..i]) == Ok(docs)
    {
      DocumentsSnoc(fs, top, i, docs);
      var content := ReadContent(fs, top[i]);
      if content.Err? {
        return Err(content.error);
      }
      docs := docs + [RagDocument(top[i].id, top[i].description, content.value)];
      i := i + 1;
    }
    assert top[..i] == top;
    return Ok(docs);
  }
}

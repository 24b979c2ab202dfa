/** Finding the test cases of a tests directory: from `testcases.yaml`
    (or `testcases.yml`) when one exists, otherwise by pairing each
    `input_<base>` file with an `expect_<base>.txt` or `.csv` file. */
module TestRepository {
  import opened Wrappers
  import opened JavaText
  import opened Domain

  /** A node of an already parsed YAML document, as the generic `Map`
      reading hands it over: null, a scalar (by its text), a list or a map
      (by the text of its keys). */
  datatype Node = Null | Scalar(text: Str) | Sequence(items: seq<Node>) | Mapping(fields: map<Str, Node>)

  /** The directory as the repository sees it: its files, the names a
      directory listing yields, the YAML reader (`Ok(None)` for an empty
      document), `toString` of a list or map node, and the messages the
      JVM gives the two `NullPointerException`s the reading can throw (a
      null `vars` value, an empty document). */
  datatype Disk = Disk(
    files: FileSystem,
    listing: Str -> seq<Str>,
    parse: Str -> Result<Option<map<Str, Node>>, Failure>,
    render: Node -> Str,
    nullValueMessage: Str,
    nullRootMessage: Str)

  const TESTCASES_YAML: Str := "testcases.yaml"
  const TESTCASES_YML: Str := "testcases.yml"
  const INPUT_PREFIX: Str := "input_"

  /** `Path.resolve`: an absolute path replaces the directory, an empty
      one leaves it. */
  function ResolveAgainst(dir: Str, other: Str): (r: Str)
    ensures |other| > 0 && other[0] != '/' ==> r == Resolve(dir, other)
  {
    if other == [] then dir
    else if other[0] == '/' then other
    else Resolve(dir, other)
  }

  // ----------------------------------------------------- testcases file

  /** `findTestcasesFile`: the `.yaml` file first, then the `.yml` one. */
  function FindTestcasesFile(files: FileSystem, testsDir: Str): (r: Option<Str>)
    ensures r.Some? <==> Exists(files, Resolve(testsDir, TESTCASES_YAML)) || Exists(files, Resolve(testsDir, TESTCASES_YML))
    ensures Exists(files, Resolve(testsDir, TESTCASES_YAML)) ==> r == Some(Resolve(testsDir, TESTCASES_YAML))
  {
    var yaml := Resolve(testsDir, TESTCASES_YAML);
    var yml := Resolve(testsDir, TESTCASES_YML);
    if Exists(files, yaml) then Some(yaml)
    else if Exists(files, yml) then Some(yml)
    else None
  }

  /** A field of a map node; a missing key reads as null. */
  function Get(fields: map<Str, Node>, key: Str): Node {
    if key in fields then fields[key] else Null
  }

  /** `Objects.toString(node, null)`. */
  function TextOf(disk: Disk, node: Node): (r: Option<Str>)
    ensures r.None? <==> node.Null?
    ensures node.Scalar? ==> r == Some(node.text)
  {
    match node
    case Null => None
    case Scalar(text) => Some(text)
    case _ => Some(disk.render(node))
  }

  /** The `vars` of an entry, every value by its text. A null value makes
      `toString` throw a `NullPointerException`. */
  function VarsOf(disk: Disk, node: Node): (r: Result<map<Str, Str>, Failure>)
    ensures !node.Mapping? ==> r == Ok(map[])
    ensures node.Mapping? ==> (r.Ok? <==> forall k | k in node.fields :: !node.fields[k].Null?)
    ensures r.Err? ==> r.error == Some(disk.nullValueMessage)
    ensures r.Ok? && node.Mapping? ==>
      r.value.Keys == node.fields.Keys
      && forall k | k in r.value :: Some(r.value[k]) == TextOf(disk, node.fields[k])
  {
    match node
    case Mapping(fields) =>
      if exists k | k in fields :: fields[k].Null? then Err(Some(disk.nullValueMessage))
      else Ok(map k | k in fields :: TextOf(disk, fields[k]).value)
    case _ => Ok(map[])
  }

  /** One entry of the `cases` list: skipped (`None`) unless it is a map
      with a name, an input and an expected file. Its `vars` are read
      before those are checked. */
  function EntryCase(disk: Disk, testsDir: Str, entry: Node): Result<Option<AwkTestCase>, Failure> {
    match entry
    case Mapping(fields) =>
      var name := TextOf(disk, Get(fields, "name"));
      var input := TextOf(disk, Get(fields, "input"));
      var expected := TextOf(disk, Get(fields, "expected"));
      var program := TextOf(disk, Get(fields, "program"));
      (match VarsOf(disk, Get(fields, "vars"))
       case Err(e) => Err(e)
       case Ok(vars) =>
         if name.None? || input.None? || expected.None? then Ok(None)
         else
           var programOverride := if program.Some? then Some(ResolveAgainst(testsDir, program.value)) else None;
           Ok(Some(AwkTestCase(name.value, ResolveAgainst(testsDir, input.value),
                               ResolveAgainst(testsDir, expected.value), vars, programOverride))))
    case _ => Ok(None)
  }

  /** The loop of `readFromYaml` as a value: the cases of the entries in
      order, or the first failure. */
  function EntryCases(disk: Disk, testsDir: Str, entries: seq<Node>): Result<seq<AwkTestCase>, Failure>
    decreases |entries|
  {
    if entries == [] then Ok([])
    else
      match EntryCases(disk, testsDir, entries[..|entries| - 1])
      case Err(e) => Err(e)
      case Ok(cases) =>
        match EntryCase(disk, testsDir, entries[|entries| - 1])
        case Err(e) => Err(e)
        case Ok(found) => Ok(cases + if found.Some? then [found.value] else [])
  }

  /** The document of a testcases file: unreadable files and reader
      failures propagate, an empty document is a `NullPointerException`. */
  function Document(disk: Disk, yamlFile: Str): Result<map<Str, Node>, Failure> {
    match ReadString(disk.files, yamlFile)
    case Err(e) => Err(e)
    case Ok(text) =>
      match disk.parse(text)
      case Err(e) => Err(e)
      case Ok(None) => Err(Some(disk.nullRootMessage))
      case Ok(Some(root)) => Ok(root)
  }

  /** `readFromYaml` as a value. */
  function FromYaml(disk: Disk, testsDir: Str, yamlFile: Str): Result<seq<AwkTestCase>, Failure> {
    match Document(disk, yamlFile)
    case Err(e) => Err(e)
    case Ok(root) =>
      match Get(root, "cases")
      case Sequence(entries) => EntryCases(disk, testsDir, entries)
      case _ => Ok([])
  }

  /** `readFromYaml`. */
  method ReadFromYaml(disk: Disk, testsDir: Str, yamlFile: Str) returns (r: Result<seq<AwkTestCase>, Failure>)
    ensures r == FromYaml(disk, testsDir, yamlFile)
  {
    var root := Document(disk, yamlFile);
    if root.Err? {
      return Err(root.error);
    }
    var casesNode := Get(root.value, "cases");
    if !casesNode.Sequence? {
      return Ok([]);
    }
    var entries := casesNode.items;
    var cases: seq<AwkTestCase> := [];
    var i := 0;
    while i < |entries|
      invariant 0 <= i <= |entries|
      invariant EntryCases(disk, testsDir, entries[..i]) == Ok(cases)
    {
      assert entries[..i + 1][..i] == entries[..i];
      var found := EntryCase(disk, testsDir, entries[i]);
      if found.Err? {
        EntryFailureStops(disk, testsDir, entries, i + 1);
        return Err(found.error);
      }
      if found.value.Some? {
        cases := cases + [found.value.value];
      } else {
        cases := cases + [];
      }
      i := i + 1;
    }
    assert entries[..i] == entries;
    r := Ok(cases);
  }

  // ----------------------------------------------------- directory scan

  /** `extractBaseName`: the name must be "input_" and at least one more
      char (none a line terminator); the base is that remainder up to its
      last dot, or all of it. */
  function ExtractBaseName(fileName: Str): (r: Option<Str>)
    ensures r.Some? <==>
      |fileName| > |INPUT_PREFIX| && StartsWith(fileName, INPUT_PREFIX)
      && forall k | |INPUT_PREFIX| <= k < |fileName| :: !IsLineTerminator(fileName[k])
  {
    if |fileName| > |INPUT_PREFIX| && StartsWith(fileName, INPUT_PREFIX)
       && forall k | |INPUT_PREFIX| <= k < |fileName| :: !IsLineTerminator(fileName[k])
    then
      var remainder := fileName[|INPUT_PREFIX|..];
      var dot := LastIndexOf(remainder, ".");
      if dot > -1 then Some(remainder[..dot]) else Some(remainder)
    else None
  }

  /** The case a listed file yields, if any. */
  function ScanCase(files: FileSystem, testsDir: Str, fileName: Str): Option<AwkTestCase> {
    if !StartsWith(fileName, INPUT_PREFIX) then None
    else
      match ExtractBaseName(fileName)
      case None => None
      case Some(base) =>
        var expectedTxt := Resolve(testsDir, "expect_" + base + ".txt");
        var expectedCsv := Resolve(testsDir, "expect_" + base + ".csv");
        var expected := if Exists(files, expectedTxt) then expectedTxt else expectedCsv;
        if !Exists(files, expected) then None
        else Some(AwkTestCase(base, Resolve(testsDir, fileName), expected, map[], None))
  }

  /** The loop of `scanDirectory` as a value. */
  function Scanned(files: FileSystem, testsDir: Str, names: seq<Str>): seq<AwkTestCase>
    decreases |names|
  {
    if names == [] then []
    else
      var found := ScanCase(files, testsDir, names[|names| - 1]);
      Scanned(files, testsDir, names[..|names| - 1]) + if found.Some? then [found.value] else []
  }

  /** `scanDirectory`. */
  method ScanDirectory(disk: Disk, testsDir: Str) returns (cases: seq<AwkTestCase>)
    ensures cases == Scanned(disk.files, testsDir, disk.listing(testsDir))
  {
    var names := disk.listing(testsDir);
    cases := [];
    var i := 0;
    while i < |names|
      invariant 0 <= i <= |names|
      invariant cases == Scanned(disk.files, testsDir, names[..i])
    {
      assert names[..i + 1][..i] == names[..i];
      var found := ScanCase(disk.files, testsDir, names[i]);
      if found.Some? {
        cases := cases + [found.value];
      } else {
        cases := cases + [];
      }
      i := i + 1;
    }
    assert names[..i] == names;
  }

  // ---------------------------------------------------------------- load

  /** `load` as a value. */
  function Loaded(disk: Disk, testsDir: Str): Result<seq<AwkTestCase>, Failure> {
    if !Exists(disk.files, testsDir) then Ok([])
    else
      match FindTestcasesFile(disk.files, testsDir)
      case Some(yamlFile) => FromYaml(disk, testsDir, yamlFile)
      case None => Ok(Scanned(disk.files, testsDir, disk.listing(testsDir)))
  }

  /** `load`. */
  method Load(disk: Disk, testsDir: Str) returns (r: Result<seq<AwkTestCase>, Failure>)
    ensures r == Loaded(disk, testsDir)
  {
    if !Exists(disk.files, testsDir) {
      return Ok([]);
    }
    var testcasesFile := FindTestcasesFile(disk.files, testsDir);
    if testcasesFile.Some? {
      r := ReadFromYaml(disk, testsDir, testcasesFile.value);
    } else {
      var cases := ScanDirectory(disk, testsDir);
      r := Ok(cases);
    }
  }

  // ------------------------------------------------------ properties

  /** A failing entry makes the whole read fail the same way. */
  lemma {:induction false} EntryFailureStops(disk: Disk, testsDir: Str, entries: seq<Node>, n: nat)
    requires n <= |entries|
    requires EntryCases(disk, testsDir, entries[..n]).Err?
    ensures EntryCases(disk, testsDir, entries) == EntryCases(disk, testsDir, entries[..n])
    decreases |entries| - n
  {
    if n < |entries| {
      assert entries[..n + 1][..n] == entries[..n];
      EntryFailureStops(disk, testsDir, entries, n + 1);
    } else {
      assert entries[..n] == entries;
    }
  }

  /** Which source `load` uses: nothing for a missing directory, the
      `.yaml` file before the `.yml` one, and the scan only when neither
      exists. */
  lemma LoadSource(disk: Disk, testsDir: Str)
    ensures !Exists(disk.files, testsDir) ==> Loaded(disk, testsDir) == Ok([])
    ensures Exists(disk.files, testsDir) && Exists(disk.files, Resolve(testsDir, TESTCASES_YAML)) ==>
      Loaded(disk, testsDir) == FromYaml(disk, testsDir, Resolve(testsDir, TESTCASES_YAML))
    ensures Exists(disk.files, testsDir) && !Exists(disk.files, Resolve(testsDir, TESTCASES_YAML))
            && Exists(disk.files, Resolve(testsDir, TESTCASES_YML)) ==>
      Loaded(disk, testsDir) == FromYaml(disk, testsDir, Resolve(testsDir, TESTCASES_YML))
    ensures Exists(disk.files, testsDir) && !Exists(disk.files, Resolve(testsDir, TESTCASES_YAML))
            && !Exists(disk.files, Resolve(testsDir, TESTCASES_YML)) ==>
      Loaded(disk, testsDir) == Ok(Scanned(disk.files, testsDir, disk.listing(testsDir)))
  {
  }

  /** A `cases` value that is not a list yields no cases. */
  lemma CasesNotAList(disk: Disk, testsDir: Str, yamlFile: Str)
    requires Document(disk, yamlFile).Ok?
    requires !Get(Document(disk, yamlFile).value, "cases").Sequence?
    ensures FromYaml(disk, testsDir, yamlFile) == Ok([])
  {
  }

  /** A YAML entry yields a case exactly when it is a map with a name, an
      input and an expected file and readable vars; the paths resolve
      against the tests directory, the override is set only for a
      `program` field, and each var is kept by its text. */
  lemma EntryCaseRule(disk: Disk, testsDir: Str, entry: Node)
    requires EntryCase(disk, testsDir, entry).Ok?
    ensures var found := EntryCase(disk, testsDir, entry).value;
      (found.Some? <==>
        entry.Mapping? && !Get(entry.fields, "name").Null?
        && !Get(entry.fields, "input").Null? && !Get(entry.fields, "expected").Null?)
      && (found.Some? ==>
            var fields := entry.fields;
            Some(found.value.name) == TextOf(disk, Get(fields, "name"))
            && found.value.inputPath == ResolveAgainst(testsDir, TextOf(disk, Get(fields, "input")).value)
            && found.value.expectedPath == ResolveAgainst(testsDir, TextOf(disk, Get(fields, "expected")).value)
            && (found.value.programOverride.Some? <==> !Get(fields, "program").Null?)
            && found.value.variables.Keys == (if Get(fields, "vars").Mapping? then Get(fields, "vars").fields.Keys else {}))
  {
  }

  /** A null var value makes the whole read fail, even in an entry that
      would be skipped for lacking a name. */
  lemma NullVarFails(disk: Disk, testsDir: Str, fields: map<Str, Node>, key: Str)
    requires "vars" in fields && fields["vars"].Mapping?
    requires key in fields["vars"].fields && fields["vars"].fields[key].Null?
    ensures EntryCase(disk, testsDir, Mapping(fields)) == Err(Some(disk.nullValueMessage))
  {
  }

  /** The read succeeds exactly when no entry fails, and keeps at most
      one case per entry. */
  lemma {:induction false} EntryCasesSucceed(disk: Disk, testsDir: Str, entries: seq<Node>)
    ensures EntryCases(disk, testsDir, entries).Ok? <==>
      forall k | 0 <= k < |entries| :: EntryCase(disk, testsDir, entries[k]).Ok?
    ensures EntryCases(disk, testsDir, entries).Ok? ==> |EntryCases(disk, testsDir, entries).value| <= |entries|
    decreases |entries|
  {
    if entries != [] {
      var front := entries[..|entries| - 1];
      EntryCasesSucceed(disk, testsDir, front);
      assert forall k | 0 <= k < |front| :: front[k] == entries[k];
    }
  }

  /** When every entry yields a case, the read keeps them all, in order. */
  lemma {:induction false} EntryCasesInOrder(disk: Disk, testsDir: Str, entries: seq<Node>)
    requires forall k | 0 <= k < |entries| ::
      EntryCase(disk, testsDir, entries[k]).Ok? && EntryCase(disk, testsDir, entries[k]).value.Some?
    ensures EntryCases(disk, testsDir, entries).Ok?
    ensures |EntryCases(disk, testsDir, entries).value| == |entries|
    ensures forall k | 0 <= k < |entries| ::
      EntryCases(disk, testsDir, entries).value[k] == EntryCase(disk, testsDir, entries[k]).value.value
    decreases |entries|
  {
    if entries != [] {
      var front := entries[..|entries| - 1];
      assert forall k | 0 <= k < |front| :: front[k] == entries[k];
      EntryCasesInOrder(disk, testsDir, front);
    }
  }

  /** A scanned case is named after its base, reads its listed input file
      and an expected file that exists (the `.txt` one when it does), and
      has no variables and no program override. */
  lemma {:induction false} ScannedCases(files: FileSystem, testsDir: Str, names: seq<Str>)
    ensures |Scanned(files, testsDir, names)| <= |names|
    ensures forall c | c in Scanned(files, testsDir, names) ::
      (exists k | 0 <= k < |names| ::
         ExtractBaseName(names[k]) == Some(c.name) && c.inputPath == Resolve(testsDir, names[k]))
      && Exists(files, c.expectedPath)
      && (Exists(files, Resolve(testsDir, "expect_" + c.name + ".txt")) ==>
            c.expectedPath == Resolve(testsDir, "expect_" + c.name + ".txt"))
      && (!Exists(files, Resolve(testsDir, "expect_" + c.name + ".txt")) ==>
            c.expectedPath == Resolve(testsDir, "expect_" + c.name + ".csv"))
      && c.variables == map[] && c.programOverride.None?
    decreases |names|
  {
    if names != [] {
      var front := names[..|names| - 1];
      ScannedCases(files, testsDir, front);
      assert forall k | 0 <= k < |front| :: front[k] == names[k];
    }
  }

  /** Every listed `input_` file with a base and an expected file, `.txt`
      or `.csv`, yields a case that reads it. */
  lemma {:induction false} ScanComplete(files: FileSystem, testsDir: Str, names: seq<Str>, k: nat, base: Str)
    requires k < |names| && ExtractBaseName(names[k]) == Some(base)
    requires Exists(files, Resolve(testsDir, "expect_" + base + ".txt"))
          || Exists(files, Resolve(testsDir, "expect_" + base + ".csv"))
    ensures exists c | c in Scanned(files, testsDir, names) ::
      c.name == base && c.inputPath == Resolve(testsDir, names[k])
    decreases |names|
  {
    var front := names[..|names| - 1];
    if k == |names| - 1 {
      var found := ScanCase(files, testsDir, names[k]);
      assert found.Some? && found.value.name == base && found.value.inputPath == Resolve(testsDir, names[k]);
      assert found.value in Scanned(files, testsDir, names);
    } else {
      assert front[k] == names[k];
      ScanComplete(files, testsDir, front, k, base);
      var c :| c in Scanned(files, testsDir, front) && c.name == base && c.inputPath == Resolve(testsDir, names[k]);
      assert c in Scanned(files, testsDir, names);
    }
  }

  /** The last dot of `base + "." + extension` is the one after `base`
      when the extension has none. */
  lemma LastDot(base: Str, extension: Str)
    requires '.' !in extension
    ensures LastIndexOf(base + "." + extension, ".") == |base|
  {
    var remainder := base + "." + extension;
    assert remainder[|base|..|base| + 1] == ".";
    forall j | |base| < j <= |remainder| ensures !IsAt(remainder, ".", j) {
      if j < |remainder| {
        assert remainder[j] == extension[j - |base| - 1];
        assert remainder[j..j + 1] != ".";
      }
    }
    assert IsAt(remainder, ".", |base|);
    var r := LastIndexOf(remainder, ".");
    assert r != -1 && r >= |base|;
  }

  /** The base is the remainder up to its last dot. */
  lemma ExtractBaseNameOf(base: Str, extension: Str)
    requires '.' !in extension
    requires forall k | 0 <= k < |base| :: !IsLineTerminator(base[k])
    requires forall k | 0 <= k < |extension| :: !IsLineTerminator(extension[k])
    ensures ExtractBaseName(INPUT_PREFIX + base + "." + extension) == Some(base)
  {
    var remainder := base + "." + extension;
    var name := INPUT_PREFIX + remainder;
    assert INPUT_PREFIX + base + "." + extension == name;
    assert name[|INPUT_PREFIX|..] == remainder;
    assert name[..|INPUT_PREFIX|] == INPUT_PREFIX;
    forall k | |INPUT_PREFIX| <= k < |name| ensures !IsLineTerminator(name[k]) {
      var j := k - |INPUT_PREFIX|;
      assert name[k] == remainder[j];
      if j < |base| {
        assert remainder[j] == base[j];
      } else if j > |base| {
        assert remainder[j] == extension[j - |base| - 1];
      }
    }
    LastDot(base, extension);
    assert remainder[..|base|] == base;
  }

  /** A remainder without a dot is the base itself. */
  lemma ExtractBaseNameWithoutDot(remainder: Str)
    requires remainder != [] && '.' !in remainder
    requires forall k | 0 <= k < |remainder| :: !IsLineTerminator(remainder[k])
    ensures ExtractBaseName(INPUT_PREFIX + remainder) == Some(remainder)
  {
    var name := INPUT_PREFIX + remainder;
    assert name[|INPUT_PREFIX|..] == remainder;
    assert name[..|INPUT_PREFIX|] == INPUT_PREFIX;
    assert forall k | |INPUT_PREFIX| <= k < |name| :: name[k] == remainder[k - |INPUT_PREFIX|];
    forall i | 0 <= i <= |remainder| - 1 ensures !IsAt(remainder, ".", i) {
      assert remainder[i] in remainder;
    }
  }
}

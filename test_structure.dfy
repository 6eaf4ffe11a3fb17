/**
 * `_validate_test_structure`: load every `*.yaml` file of the test-case
 * directory, sort the files into loadable and unloadable ones, and list the
 * YAML files that have no `.json` file of the same stem beside them.
 *
 * Globbing, `exists()` and `yaml.safe_load` are not run: the YAML files
 * arrive in glob order, each with the exception its loading raised if any,
 * and the names present in the directory arrive as a set.
 */
module TestStructure {
  import opened PyText
  import opened Wrappers

  /** A YAML test file: its name, and the text of the exception loading it raised, if any. */
  datatype TestFile = TestFile(name: string, loadError: Option<string>)

  // ---------------------------------------------------------------- the JSON sibling of a file

  /** `name.rfind('.')`. */
  function LastDot(name: string): (r: int)
    ensures -1 <= r < |name|
    ensures r >= 0 ==> name[r] == '.'
    ensures forall j :: r < j < |name| ==> name[j] != '.'
  {
    if name == [] then -1
    else if name[|name| - 1] == '.' then |name| - 1
    else LastDot(name[..|name| - 1])
  }

  /**
   * `path.with_suffix('.json').name`: the suffix is the part from the last dot
   * on, provided that dot neither starts nor ends the name; without a suffix
   * the new one is appended.
   */
  function JsonSibling(name: string): (r: string)
    ensures |r| >= 5 && r[|r| - 5..] == ".json"
    ensures var stem := r[..|r| - 5]; |stem| <= |name| && stem == name[..|stem|]
  {
    var i := LastDot(name);
    var stem := if 0 < i < |name| - 1 then name[..i] else name;
    assert (stem + ".json")[..|stem|] == stem;
    stem + ".json"
  }

  /** For a `*.yaml` file with a non-empty stem, the sibling is the stem with `.json`. */
  lemma JsonSiblingOfYaml(stem: string)
    requires |stem| > 0
    ensures JsonSibling(stem + ".yaml") == stem + ".json"
  {
    var name := stem + ".yaml";
    assert name[|stem|] == '.';
    assert (stem + ".yaml")[..|stem|] == stem;
  }

  /**
   * A name whose only dot is its first character, such as `.yaml`, has no
   * suffix, so the sibling keeps the whole name.
   */
  lemma JsonSiblingOfDotName(rest: string)
    requires '.' !in rest
    ensures JsonSibling("." + rest) == "." + rest + ".json"
  {
    var name := "." + rest;
    assert name[0] == '.';
    assert forall j :: 0 < j < |name| ==> name[j] == rest[j - 1];
  }

  // ---------------------------------------------------------------- the partition

  /** The names of the files that loaded, in glob order. */
  function ValidNames(files: seq<TestFile>): seq<string> {
    if files == [] then []
    else ValidNames(files[..|files| - 1])
         + (if files[|files| - 1].loadError.None? then [files[|files| - 1].name] else [])
  }

  /** `"{name}: {error}"` for each file that did not load, in glob order. */
  function InvalidEntries(files: seq<TestFile>): seq<string> {
    if files == [] then []
    else InvalidEntries(files[..|files| - 1])
         + (match files[|files| - 1].loadError
            case Some(e) => [files[|files| - 1].name + ": " + e]
            case None => [])
  }

  /** The loop that loads each file and files it under valid or invalid. */
  method PartitionYaml(files: seq<TestFile>) returns (valid: seq<string>, invalid: seq<string>)
    ensures valid == ValidNames(files)
    ensures invalid == InvalidEntries(files)
  {
    valid, invalid := [], [];
    var i := 0;
    while i < |files|
      invariant 0 <= i <= |files|
      invariant valid == ValidNames(files[..i])
      invariant invalid == InvalidEntries(files[..i])
    {
      assert files[..i + 1][..i] == files[..i];
      var f := files[i];
      match f.loadError {
        case None => valid := valid + [f.name];
        case Some(e) => invalid := invalid + [f.name + ": " + e];
      }
      i := i + 1;
    }
    assert files[..i] == files;
  }

  /**
   * Each file lands on exactly one of the two lists: the lists together are
   * as long as the input, a loaded file's name is among the valid ones and an
   * unloadable file's entry among the invalid ones.
   */
  lemma {:induction false} PartitionIsExact(files: seq<TestFile>)
    ensures |ValidNames(files)| + |InvalidEntries(files)| == |files|
    ensures forall i :: 0 <= i < |files| && files[i].loadError.None? ==> files[i].name in ValidNames(files)
    ensures forall i :: 0 <= i < |files| && files[i].loadError.Some? ==>
              files[i].name + ": " + files[i].loadError.value in InvalidEntries(files)
    decreases |files|
  {
    if files != [] {
      var front := files[..|files| - 1];
      PartitionIsExact(front);
      forall i | 0 <= i < |front| ensures files[i] == front[i] { }
    }
  }

  /** Every valid name is the name of a file that loaded. */
  lemma {:induction false} ValidNamesLoaded(files: seq<TestFile>)
    ensures forall n :: n in ValidNames(files) ==>
              exists i :: 0 <= i < |files| && files[i].name == n && files[i].loadError.None?
    decreases |files|
  {
    if files != [] {
      var front := files[..|files| - 1];
      ValidNamesLoaded(front);
      forall n | n in ValidNames(files)
        ensures exists i :: 0 <= i < |files| && files[i].name == n && files[i].loadError.None?
      {
        if n in ValidNames(front) {
          var i :| 0 <= i < |front| && front[i].name == n && front[i].loadError.None?;
          assert files[i] == front[i];
        } else {
          assert files[|files| - 1].name == n;
        }
      }
    }
  }

  // ---------------------------------------------------------------- files without a JSON sibling

  /** The names of the files whose JSON sibling is not among the existing names, in glob order. */
  function MissingJsonNames(files: seq<TestFile>, existing: set<string>): seq<string> {
    if files == [] then []
    else MissingJsonNames(files[..|files| - 1], existing)
         + (if JsonSibling(files[|files| - 1].name) in existing then [] else [files[|files| - 1].name])
  }

  /** The loop that looks for each file's JSON sibling. */
  method MissingJson(files: seq<TestFile>, existing: set<string>) returns (missing: seq<string>)
    ensures missing == MissingJsonNames(files, existing)
  {
    missing := [];
    var i := 0;
    while i < |files|
      invariant 0 <= i <= |files|
      invariant missing == MissingJsonNames(files[..i], existing)
    {
      assert files[..i + 1][..i] == files[..i];
      if JsonSibling(files[i].name) !in existing {
        missing := missing + [files[i].name];
      }
      i := i + 1;
    }
    assert files[..i] == files;
  }

  /**
   * A name is listed as lacking its JSON counterpart exactly when it is the
   * name of one of the files and its sibling does not exist.  Whether a file
   * loaded plays no part.
   */
  lemma {:induction false} MissingJsonExact(files: seq<TestFile>, existing: set<string>)
    ensures forall n :: n in MissingJsonNames(files, existing) <==>
              (exists i :: 0 <= i < |files| && files[i].name == n) && JsonSibling(n) !in existing
    decreases |files|
  {
    if files != [] {
      var front, last := files[..|files| - 1], files[|files| - 1];
      MissingJsonExact(front, existing);
      assert forall i :: 0 <= i < |front| ==> front[i] == files[i];
      var m := MissingJsonNames(files, existing);
      assert m == MissingJsonNames(front, existing) + (if JsonSibling(last.name) in existing then [] else [last.name]);
      forall n | (exists i :: 0 <= i < |files| && files[i].name == n) && JsonSibling(n) !in existing
        ensures n in m
      {
        var i :| 0 <= i < |files| && files[i].name == n;
        if i < |front| {
          assert front[i].name == n;
        }
      }
    }
  }

  // ---------------------------------------------------------------- the report

  function Bullets(items: seq<string>): seq<string> {
    Prefixed("  • ", items)
  }

  /** A titled bullet list, left out entirely when it would be empty. */
  function Section(title: string, items: seq<string>): seq<string> {
    if items == [] then [] else [title + " (" + IntToString(|items|) + "):"] + Bullets(items)
  }

  const NoDirectory := "❌ test_cases/ directory not found"

  /**
   * The report: without the directory, a single line; otherwise the header
   * with the file counts, then the valid, invalid and JSON-less sections,
   * each present only when it has entries.
   */
  method ValidateTestStructure(dirExists: bool, directory: string, files: seq<TestFile>, jsonCount: nat,
                               existing: set<string>)
    returns (lines: seq<string>, text: string)
    ensures text == Join("\n", lines)
    ensures !dirExists ==> lines == [NoDirectory]
    ensures dirExists ==>
              lines == ["🔍 Test Structure Validation",
                        "📁 Directory: " + directory,
                        "📄 YAML files: " + IntToString(|files|),
                        "📄 JSON files: " + IntToString(jsonCount),
                        ""]
                       + Section("✅ Valid YAML files", ValidNames(files))
                       + Section("❌ Invalid YAML files", InvalidEntries(files))
                       + Section("⚠️  YAML files without JSON counterparts", MissingJsonNames(files, existing))
  {
    if !dirExists {
      lines := [NoDirectory];
      text := NoDirectory;
      return;
    }
    lines := ["🔍 Test Structure Validation",
              "📁 Directory: " + directory,
              "📄 YAML files: " + IntToString(|files|),
              "📄 JSON files: " + IntToString(jsonCount),
              ""];
    var valid, invalid := PartitionYaml(files);
    lines := lines + Section("✅ Valid YAML files", valid);
    lines := lines + Section("❌ Invalid YAML files", invalid);
    var missing := MissingJson(files, existing);
    lines := lines + Section("⚠️  YAML files without JSON counterparts", missing);
    text := Join("\n", lines);
  }
}

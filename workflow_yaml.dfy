/**
 * `_validate_workflow_yaml`: check the basic GitHub Actions structure of each
 * workflow file and report per file, then give an overall verdict.
 *
 * Reading a file and `yaml.safe_load` are not run: each file arrives as its
 * text together with the value the loader produced, or as the error that
 * reading or loading raised.  The directory lookup and globbing arrive as
 * values too.
 */
module WorkflowYaml {
  import opened PyText
  import opened Wrappers

  /** A mapping key: the hashable scalars a YAML loader produces. */
  datatype Key = KNull | KBool(b: bool) | KInt(i: int) | KStr(s: string)

  /** A loaded YAML document.  A mapping keeps its entries in document order. */
  datatype Yaml =
    | YNull
    | YBool(b: bool)
    | YInt(i: int)
    | YStr(s: string)
    | YList(items: seq<Yaml>)
    | YMap(entries: seq<(Key, Yaml)>)

  /** `f"{key}"`. */
  function KeyText(k: Key): string {
    match k
    case KNull => "None"
    case KBool(b) => if b then "True" else "False"
    case KInt(i) => IntToString(i)
    case KStr(s) => s
  }

  /** The value stored under a key, if any. */
  function Lookup(entries: seq<(Key, Yaml)>, k: Key): (v: Option<Yaml>)
    ensures v.Some? <==> exists i :: 0 <= i < |entries| && entries[i].0 == k
  {
    if entries == [] then None
    else if entries[0].0 == k then Some(entries[0].1)
    else Lookup(entries[1..], k)
  }

  /** `name in entries` for a mapping. */
  predicate HasKey(entries: seq<(Key, Yaml)>, name: string) {
    Lookup(entries, KStr(name)).Some?
  }

  /**
   * `name in value`, Python style: key membership for a mapping, element
   * equality for a list, substring for a string, and a TypeError for scalars.
   */
  function PyIn(name: string, v: Yaml): (r: Result<bool>)
    ensures r.Err? <==> v.YNull? || v.YBool? || v.YInt?
  {
    match v
    case YMap(es) => Ok(HasKey(es, name))
    case YList(xs) => Ok(YStr(name) in xs)
    case YStr(s) => Ok(Contains(s, name))
    case YNull => Err("argument of type 'NoneType' is not iterable")
    case YBool(_) => Err("argument of type 'bool' is not iterable")
    case YInt(_) => Err("argument of type 'int' is not iterable")
  }

  /** `value[name]`, reached only once `name in value` has held. */
  function PyIndex(v: Yaml, name: string): (r: Result<Yaml>)
    requires PyIn(name, v) == Ok(true)
    ensures r.Ok? <==> v.YMap?
    ensures v.YMap? ==> Some(r.value) == Lookup(v.entries, KStr(name))
  {
    match v
    case YMap(es) => Ok(Lookup(es, KStr(name)).value)
    case YList(_) => Err("list indices must be integers or slices, not str")
    case _ => Err("string indices must be integers, not 'str'")
  }

  const MissingOn := "Missing 'on' trigger definition"
  const MissingJobs := "Missing 'jobs' definition"
  const JobsNotMapping := "'jobs' must be a dictionary"
  // written in two parts so that the verifier sees its first characters
  const SelfHostedWithoutContainer := "Self-hosted " + "runner without container specification"

  /** The messages about one job all start alike. */
  predicate IsJobError(e: string) {
    |e| >= 5 && e[..5] == "Job '"
  }

  /** `f"Job '{job_name}' "`, the opening of every message about a job. */
  function JobPrefix(name: Key): string {
    "Job '" + KeyText(name) + "' "
  }

  /** The message is about the job called `name`. */
  predicate NamesJob(e: string, name: Key) {
    |JobPrefix(name)| <= |e| && e[..|JobPrefix(name)|] == JobPrefix(name)
  }

  /** A message that names a job is a job message. */
  lemma NamedIsJobError(e: string, name: Key)
    requires NamesJob(e, name)
    ensures IsJobError(e)
  {
    var p := JobPrefix(name);
    assert e[..5] == p[..5];
    assert p[..5] == "Job '";
  }

  /** The errors of one job, in the order the checks run; each names the job. */
  function JobErrors(name: Key, job: Yaml): (r: seq<string>)
    ensures forall i :: 0 <= i < |r| ==> NamesJob(r[i], name) && IsJobError(r[i])
  {
    var p := JobPrefix(name);
    var r := match job
      case YMap(es) =>
        (if HasKey(es, "runs-on") then [] else [p + "missing 'runs-on'"])
        + (match Lookup(es, KStr("container"))
           case Some(YMap(c)) => if HasKey(c, "image") then [] else [p + "container missing 'image'"]
           case _ => [])
      case _ => [p + "must be a dictionary"];
    assert forall i :: 0 <= i < |r| ==> NamesJob(r[i], name) by {
      forall i | 0 <= i < |r| ensures NamesJob(r[i], name) {
        assert r[i][..|p|] == p;
      }
    }
    forall i | 0 <= i < |r| ensures IsJobError(r[i]) {
      NamedIsJobError(r[i], name);
    }
    r
  }

  /** The errors of all jobs, job after job; each names one of the jobs. */
  function JobsErrors(jobs: seq<(Key, Yaml)>): (r: seq<string>)
    ensures forall i :: 0 <= i < |r| ==> IsJobError(r[i])
    ensures forall i :: 0 <= i < |r| ==> exists k :: 0 <= k < |jobs| && NamesJob(r[i], jobs[k].0)
    decreases |jobs|
  {
    if jobs == [] then []
    else
      var front := jobs[..|jobs| - 1];
      var last := jobs[|jobs| - 1];
      var a, b := JobsErrors(front), JobErrors(last.0, last.1);
      var r := a + b;
      forall i | 0 <= i < |r| ensures exists k :: 0 <= k < |jobs| && NamesJob(r[i], jobs[k].0) {
        if i < |a| {
          var k :| 0 <= k < |front| && NamesJob(a[i], front[k].0);
          assert jobs[k] == front[k];
        } else {
          assert r[i] == b[i - |a|];
          assert NamesJob(r[i], jobs[|jobs| - 1].0);
        }
      }
      r
  }

  /** The raw-text check: a self-hosted runner mentioned with no container anywhere. */
  predicate SelfHostedBare(text: string) {
    var low := Lower(text);
    Contains(low, "runs-on: self-hosted") && !Contains(low, "container:")
  }

  function SelfHostedErrors(text: string): seq<string> {
    if SelfHostedBare(text) then [SelfHostedWithoutContainer] else []
  }

  /** The errors about the value under `jobs`. */
  function JobsSection(jobs: Yaml): seq<string> {
    if jobs.YMap? then JobsErrors(jobs.entries) else [JobsNotMapping]
  }

  /** The errors of a document that is a mapping: trigger, jobs, then the raw-text check. */
  function MappingErrors(text: string, es: seq<(Key, Yaml)>): seq<string> {
    (if HasKey(es, "on") then [] else [MissingOn])
    + (if HasKey(es, "jobs") then JobsSection(Lookup(es, KStr("jobs")).value) else [MissingJobs])
    + SelfHostedErrors(text)
  }

  /**
   * The structural errors of a loaded document, or the exception a check
   * raised on a document of an unexpected shape: a scalar fails the first
   * membership test, and a list or string that passes the `jobs` test
   * cannot be indexed by it.
   */
  function StructureErrors(text: string, data: Yaml): Result<seq<string>> {
    if data.YMap? then Ok(MappingErrors(text, data.entries))
    else match PyIn("on", data)
      case Err(e) => Err(e)
      case Ok(hasOn) =>
        if PyIn("jobs", data).value then Err(PyIndex(data, "jobs").error)
        else Ok((if hasOn then [] else [MissingOn]) + [MissingJobs] + SelfHostedErrors(text))
  }

  /** The loop over the jobs of a mapping. */
  method CheckJobs(jobs: seq<(Key, Yaml)>) returns (errors: seq<string>)
    ensures errors == JobsErrors(jobs)
  {
    errors := [];
    var i := 0;
    while i < |jobs|
      invariant 0 <= i <= |jobs|
      invariant errors == JobsErrors(jobs[..i])
    {
      assert jobs[..i + 1][..i] == jobs[..i];
      var found := CheckJob(jobs[i].0, jobs[i].1);
      errors := errors + found;
      i := i + 1;
    }
    assert jobs[..i] == jobs;
  }

  /** The body of the loop over the jobs: the checks on one job. */
  method CheckJob(name: Key, job: Yaml) returns (errors: seq<string>)
    ensures errors == JobErrors(name, job)
  {
    var p := JobPrefix(name);
    if !job.YMap? {
      return [p + "must be a dictionary"];
    }
    errors := [];
    if !HasKey(job.entries, "runs-on") {
      errors := errors + [p + "missing 'runs-on'"];
    }
    var container := Lookup(job.entries, KStr("container"));
    if container.Some? && container.value.YMap? && !HasKey(container.value.entries, "image") {
      errors := errors + [p + "container missing 'image'"];
    }
  }

  /** The checks on one loaded document, in the order the source runs them. */
  method ValidateStructure(text: string, data: Yaml) returns (r: Result<seq<string>>)
    ensures r == StructureErrors(text, data)
  {
    var hasOn := PyIn("on", data);
    if hasOn.Err? {
      return Err(hasOn.error);
    }
    var hasJobs := PyIn("jobs", data);
    var errors: seq<string> := [];
    if !hasOn.value {
      errors := errors + [MissingOn];
    }
    ghost var onErrors := errors;
    assert onErrors == if hasOn.value then [] else [MissingOn];
    if !hasJobs.value {
      errors := errors + [MissingJobs];
    }
    if hasJobs.value {
      var jobs := PyIndex(data, "jobs");
      if jobs.Err? {
        return Err(jobs.error);
      }
      if !jobs.value.YMap? {
        errors := errors + [JobsNotMapping];
      } else {
        var jobErrors := CheckJobs(jobs.value.entries);
        errors := errors + jobErrors;
      }
      assert errors == onErrors + JobsSection(jobs.value);
    }
    ghost var middle := errors;
    if SelfHostedBare(text) {
      errors := errors + [SelfHostedWithoutContainer];
    }
    assert errors == middle + SelfHostedErrors(text);
    if !data.YMap? {
      assert middle == onErrors + [MissingJobs];
    }
    return Ok(errors);
  }

  // ---------------------------------------------------------------- one file, and the batch

  /** What reading and loading one workflow file gave. */
  datatype Content =
    | Unreadable(error: string)            // opening or decoding the file raised
    | Malformed(error: string)             // the loader raised a YAML error
    | Loaded(text: string, data: Yaml)     // the raw text and the loaded document

  /** A workflow file: its base name (`workflow_path.name`) and content. */
  datatype WorkflowFile = WorkflowFile(name: string, content: Content)

  /** The file is reported as valid. */
  predicate Passes(f: WorkflowFile) {
    f.content.Loaded? && StructureErrors(f.content.text, f.content.data) == Ok([])
  }

  function Bullets(errors: seq<string>): seq<string> {
    Prefixed("   - ", errors)
  }

  /** The loop that writes one bullet per error. */
  method BulletLines(errors: seq<string>) returns (lines: seq<string>)
    ensures lines == Bullets(errors)
  {
    lines := [];
    var k := 0;
    while k < |errors|
      invariant 0 <= k <= |errors|
      invariant lines == Bullets(errors[..k])
    {
      lines := lines + ["   - " + errors[k]];
      k := k + 1;
    }
  }

  function ErrorLines(name: string, kind: string, error: string): seq<string> {
    ["❌ " + name + ": " + kind, "   Error: " + error]
  }

  /** The report lines of one file. */
  function FileReport(f: WorkflowFile): seq<string> {
    match f.content
    case Unreadable(e) => ErrorLines(f.name, "Validation error", e)
    case Malformed(e) => ErrorLines(f.name, "YAML syntax error", e)
    case Loaded(text, data) =>
      match StructureErrors(text, data)
      case Err(e) => ErrorLines(f.name, "Validation error", e)
      case Ok(errors) =>
        if errors == [] then ["✅ " + f.name + ": Valid"]
        else ["⚠️  " + f.name + ":"] + Bullets(errors)
  }

  /** The reports of all files, file after file. */
  function FileReports(fs: seq<WorkflowFile>): seq<string> {
    if fs == [] then [] else FileReports(fs[..|fs| - 1]) + FileReport(fs[|fs| - 1])
  }

  const Banner := ["🔍 GitHub Actions YAML Validation", Repeat('=', 40), ""]

  const HelpfulCommands := [
    "",
    "💡 Helpful Commands:",
    "   - Check workflow runs: Use 'check_workflow_runs' MCP tool",
    "   - GitHub CLI: gh workflow list",
    "   - GitHub CLI: gh run list --workflow <name>"
  ]

  function Verdict(allValid: bool): string {
    if allValid then "🎉 All workflow files are valid!" else "⚠️  Some workflow files have issues that need attention"
  }

  /**
   * The loop over the files (the `all_valid` flag and the per-file reports):
   * the verdict is true exactly when every file passes.
   */
  method ValidateFiles(fs: seq<WorkflowFile>) returns (reports: seq<string>, allValid: bool)
    ensures reports == FileReports(fs)
    ensures allValid <==> forall i :: 0 <= i < |fs| ==> Passes(fs[i])
  {
    reports := [];
    allValid := true;
    var i := 0;
    while i < |fs|
      invariant 0 <= i <= |fs|
      invariant reports == FileReports(fs[..i])
      invariant allValid <==> forall j :: 0 <= j < i ==> Passes(fs[j])
    {
      assert fs[..i + 1][..i] == fs[..i];
      var lines, passes := ReportFile(fs[i]);
      ghost var before := allValid;
      allValid := allValid && passes;
      assert allValid <==> forall j :: 0 <= j < i + 1 ==> Passes(fs[j]) by {
        if allValid {
          forall j | 0 <= j < i + 1 ensures Passes(fs[j]) {
            if j < i { assert before; } else { assert passes; }
          }
        }
      }
      reports := reports + lines;
      i := i + 1;
    }
    assert fs[..i] == fs;
  }

  /** The body of the loop: one file's report lines and whether it passed. */
  method ReportFile(f: WorkflowFile) returns (lines: seq<string>, passes: bool)
    ensures lines == FileReport(f)
    ensures passes == Passes(f)
  {
    match f.content {
      case Unreadable(e) =>
        lines := ErrorLines(f.name, "Validation error", e);
        passes := false;
      case Malformed(e) =>
        lines := ErrorLines(f.name, "YAML syntax error", e);
        passes := false;
      case Loaded(text, data) =>
        var r := ValidateStructure(text, data);
        if r.Err? {
          lines := ErrorLines(f.name, "Validation error", r.error);
          passes := false;
        } else if r.value != [] {
          var bullets := BulletLines(r.value);
          lines := ["⚠️  " + f.name + ":"] + bullets;
          passes := false;
        } else {
          lines := ["✅ " + f.name + ": Valid"];
          passes := true;
        }
    }
  }

  /**
   * The whole report.  A missing workflows directory, a requested file that
   * does not exist and an empty selection each end the report after the
   * banner with one line; otherwise the file count, the per-file reports,
   * the verdict and the helpful commands follow.  A truthy `requested` name
   * selects `requestedFile` alone; otherwise `globbed` (the `*.yml` files,
   * then the `*.yaml` files) is validated.
   */
  method ValidateWorkflowYaml(dirExists: bool, requested: Option<string>, requestedFile: Option<WorkflowFile>,
                              globbed: seq<WorkflowFile>)
    returns (lines: seq<string>, text: string)
    ensures text == Join("\n", lines)
    ensures !dirExists ==> lines == Banner + ["❌ No .github/workflows directory found"]
    ensures dirExists && requested.Some? && requested.value != "" && requestedFile.None? ==>
              lines == Banner + ["❌ Workflow file not found: " + requested.value]
    ensures dirExists && !(requested.Some? && requested.value != "") && globbed == [] ==>
              lines == Banner + ["ℹ️  No workflow files found"]
    ensures dirExists && ((requested.Some? && requested.value != "" && requestedFile.Some?)
                          || (!(requested.Some? && requested.value != "") && globbed != [])) ==>
              var fs := if requested.Some? && requested.value != "" then [requestedFile.value] else globbed;
              var allValid := forall i :: 0 <= i < |fs| ==> Passes(fs[i]);
              lines == Banner + ["📋 Validating " + IntToString(|fs|) + " workflow file(s):", ""]
                       + FileReports(fs) + ["", Verdict(allValid)] + HelpfulCommands
  {
    lines := Banner;
    if !dirExists {
      lines := lines + ["❌ No .github/workflows directory found"];
      text := Join("\n", lines);
      return;
    }
    var fs: seq<WorkflowFile>;
    if requested.Some? && requested.value != "" {
      if requestedFile.None? {
        lines := lines + ["❌ Workflow file not found: " + requested.value];
        text := Join("\n", lines);
        return;
      }
      fs := [requestedFile.value];
    } else {
      fs := globbed;
    }
    if fs == [] {
      lines := lines + ["ℹ️  No workflow files found"];
      text := Join("\n", lines);
      return;
    }
    lines := lines + ["📋 Validating " + IntToString(|fs|) + " workflow file(s):", ""];
    var reports, allValid := ValidateFiles(fs);
    lines := lines + reports + ["", Verdict(allValid)] + HelpfulCommands;
    text := Join("\n", lines);
  }

  // ---------------------------------------------------------------- properties of the validator

  /** A null, boolean or integer document makes the first membership test raise.  A string
      document does not: there the membership tests are substring tests. */
  lemma ScalarDocumentRaises(text: string, data: Yaml)
    requires data.YNull? || data.YBool? || data.YInt?
    ensures StructureErrors(text, data).Err?
    ensures data.YNull? ==> StructureErrors(text, data) == Err("argument of type 'NoneType' is not iterable")
  {
  }

  /** None of the document-level messages is about a single job. */
  lemma TopLevelMessagesNameNoJob()
    ensures !IsJobError(MissingOn) && !IsJobError(MissingJobs)
    ensures !IsJobError(JobsNotMapping) && !IsJobError(SelfHostedWithoutContainer)
  {
    assert MissingOn[..5][0] == 'M' && MissingJobs[..5][0] == 'M';
    assert JobsNotMapping[..5][0] == '\'';
    assert SelfHostedWithoutContainer[..5][0] == 'S';
  }

  /**
   * A mapping without an `on` key gets the trigger error first and only once.
   * This includes a workflow whose `on:` key the loader read as the boolean
   * `True`, as a YAML 1.1 loader does.
   */
  lemma MissingOnReportedOnce(text: string, es: seq<(Key, Yaml)>)
    requires !HasKey(es, "on")
    ensures StructureErrors(text, YMap(es)).Ok?
    ensures var errors := StructureErrors(text, YMap(es)).value;
      |errors| >= 1 && errors[0] == MissingOn && MissingOn !in errors[1..]
  {
    TopLevelMessagesNameNoJob();
    var rest := (if HasKey(es, "jobs") then JobsSection(Lookup(es, KStr("jobs")).value) else [MissingJobs])
                + SelfHostedErrors(text);
    assert MappingErrors(text, es) == [MissingOn] + rest;
  }

  /** A mapping without `jobs` gets that error once and no job errors at all. */
  lemma MissingJobsReportedOnce(text: string, es: seq<(Key, Yaml)>)
    requires !HasKey(es, "jobs")
    ensures StructureErrors(text, YMap(es)).Ok?
    ensures var errors := StructureErrors(text, YMap(es)).value;
      (errors == [MissingJobs] + SelfHostedErrors(text) || errors == [MissingOn, MissingJobs] + SelfHostedErrors(text))
      && forall i :: 0 <= i < |errors| ==> !IsJobError(errors[i])
  {
    TopLevelMessagesNameNoJob();
  }

  /** A `jobs` value that is not a mapping adds exactly one error and no per-job errors. */
  lemma JobsNotMappingReportedOnce(text: string, es: seq<(Key, Yaml)>)
    requires HasKey(es, "jobs") && !Lookup(es, KStr("jobs")).value.YMap?
    ensures StructureErrors(text, YMap(es)).Ok?
    ensures var errors := StructureErrors(text, YMap(es)).value;
      (errors == [JobsNotMapping] + SelfHostedErrors(text) || errors == [MissingOn, JobsNotMapping] + SelfHostedErrors(text))
      && forall i :: 0 <= i < |errors| ==> !IsJobError(errors[i])
  {
    TopLevelMessagesNameNoJob();
  }

  /** A job that is not a mapping gets one error, and its other checks are skipped. */
  lemma JobNotMappingSkipsChecks(name: Key, job: Yaml)
    requires !job.YMap?
    ensures JobErrors(name, job) == [JobPrefix(name) + "must be a dictionary"]
  {
  }

  /**
   * A job mapping with `runs-on` gets an error exactly when its container is
   * a mapping without `image`; a container given as an image name is fine.
   */
  lemma ContainerImageCheck(name: Key, es: seq<(Key, Yaml)>)
    requires HasKey(es, "runs-on")
    ensures var c := Lookup(es, KStr("container"));
      JobErrors(name, YMap(es))
        == (if c.Some? && c.value.YMap? && !HasKey(c.value.entries, "image")
            then [JobPrefix(name) + "container missing 'image'"] else [])
  {
  }

  /** A file is reported valid, in a single line, exactly when it loaded and its error list is empty. */
  lemma ValidIffNoErrors(f: WorkflowFile)
    ensures Passes(f) <==> |FileReport(f)| == 1
    ensures Passes(f) ==> FileReport(f) == ["✅ " + f.name + ": Valid"]
  {
  }
}

/**
 * `_check_workflow_runs`: list the latest GitHub Actions runs through the
 * GitHub CLI and render them as a status report.
 *
 * The authentication check, the `gh run list` process and `json.loads` are
 * not run: their results arrive as an `AuthStatus`, a `RunQuery` and the
 * decoded runs.  Each run is a JSON object whose fields are scalars.
 */
module WorkflowRuns {
  import opened PyText
  import opened Wrappers
  import opened GitHubAuth

  /** A scalar JSON value, as `json.loads` produces it. */
  datatype Json = JNull | JBool(b: bool) | JInt(i: int) | JStr(s: string)

  /** One element of the decoded run list. */
  type Run = map<string, Json>

  /** How the `gh run list` invocation turned out. */
  datatype RunQuery =
    | CliNotFound                                   // starting `gh` raised FileNotFoundError
    | Finished(code: int, stderr: string, listing: Result<seq<Run>>)  // the listing is `json.loads` of the output

  /** The `f"{value}"` text of a JSON value. */
  function Display(v: Json): string {
    match v
    case JNull => "None"
    case JBool(b) => if b then "True" else "False"
    case JInt(i) => IntToString(i)
    case JStr(s) => s
  }

  /** Python truthiness. */
  predicate Truthy(v: Json) {
    match v
    case JNull => false
    case JBool(b) => b
    case JInt(i) => i != 0
    case JStr(s) => s != ""
  }

  /** `run.get(key, default)`. */
  function Get(run: Run, key: string, default: string): Json {
    if key in run then run[key] else JStr(default)
  }

  const Banner := ["🔍 GitHub Actions Workflow Status", Repeat('=', 40), ""]

  /** The fields `gh run list --json` is asked for, in the order the command names them. */
  const RunFields := ["status", "conclusion", "name", "createdAt", "headBranch", "workflowName", "url", "databaseId"]

  /** The `--json` argument: `"status,conclusion,...,databaseId"`. */
  const FieldList := Join(",", RunFields)

  /**
   * The `gh` command that lists the runs: the limit as a decimal argument
   * that reads back as the limit, the comma-separated field list, and a
   * workflow filter exactly when a truthy workflow name is given.
   */
  function RunListArgv(limit: int, workflowName: Option<string>): (argv: seq<string>)
    ensures |argv| >= 7 && argv[..4] == ["gh", "run", "list", "--limit"] && argv[5] == "--json"
    ensures IsIntText(argv[4]) && ParseInt(argv[4]) == limit
    ensures Split(argv[6], ',') == RunFields
    ensures GitHubAuth.Truthy(workflowName) ==> argv[7..] == ["--workflow", workflowName.value]
    ensures !GitHubAuth.Truthy(workflowName) ==> |argv| == 7
  {
    IntToStringRoundTrip(limit);
    RunFieldsSplit();
    var base := ["gh", "run", "list", "--limit", IntToString(limit), "--json", FieldList];
    assert base[..4] == ["gh", "run", "list", "--limit"] && base[4] == IntToString(limit) && base[6] == FieldList;
    if GitHubAuth.Truthy(workflowName) then
      var argv := base + ["--workflow", workflowName.value];
      assert argv[..7] == base && argv[7..] == ["--workflow", workflowName.value];
      argv
    else base
  }

  /** The field list is the fields joined by commas, none of which holds a comma. */
  lemma RunFieldsSplit()
    ensures Split(FieldList, ',') == RunFields
  {
    forall i | 0 <= i < |RunFields| ensures ',' !in RunFields[i] {
    }
    SplitJoin(RunFields, ',');
  }

  /** The icon of a run, from its status and, for a completed run only, its conclusion. */
  function StatusIcon(status: Json, conclusion: Json): string {
    if status == JStr("completed") then
      if conclusion == JStr("success") then "✅"
      else if conclusion == JStr("failure") then "❌"
      else if conclusion == JStr("cancelled") then "🚫"
      else "⚠️"
    else if status == JStr("in_progress") then "🔄"
    else if status == JStr("queued") then "⏳"
    else "❓"
  }

  /** The Python type name used in a TypeError message. */
  function TypeName(v: Json): string {
    match v
    case JNull => "NoneType"
    case JBool(_) => "bool"
    case JInt(_) => "int"
    case JStr(_) => "str"
  }

  /** The run's `createdAt`, or the default for a missing one, is a string that can be sliced. */
  predicate StampIsText(run: Run) {
    Get(run, "createdAt", "").JStr?
  }

  /** `created[:19].replace('T', ' ')`: the date and time of an ISO 8601 stamp. */
  function CreatedText(created: Json): (r: Result<string>)
    ensures created.JStr? <==> r.Ok?
  {
    match created
    case JStr(s) => Ok(ReplaceChar(Take(s, 19), 'T', ' '))
    case _ => Err("'" + TypeName(created) + "' object is not subscriptable")
  }

  /**
   * The lines of one run whose creation time reads `created`: a header with
   * icon, workflow name and branch, the status line, the creation time, the
   * run id, the URL when it is truthy, and a blank line.
   */
  function BlockLines(run: Run, created: string): seq<string> {
    var status := Get(run, "status", "unknown");
    var conclusion := Get(run, "conclusion", "unknown");
    var url := Get(run, "url", "");
    [StatusIcon(status, conclusion) + " **" + Display(Get(run, "workflowName", "Unknown")) + "** ("
       + Display(Get(run, "headBranch", "unknown")) + ")",
     "   Status: " + Display(status) + " | Conclusion: " + Display(conclusion),
     "   Created: " + created,
     "   Run ID: " + Display(Get(run, "databaseId", ""))]
    + (if Truthy(url) then ["   URL: " + Display(url)] else [])
    + [""]
  }

  /** The lines of one run, or the exception raised while slicing its timestamp. */
  function RunBlock(run: Run): (r: Result<seq<string>>)
    ensures r.Ok? <==> StampIsText(run)
  {
    match CreatedText(Get(run, "createdAt", ""))
    case Err(e) => Err(e)
    case Ok(created) => Ok(BlockLines(run, created))
  }

  /** The blocks of all runs in order, or the first exception raised. */
  function RunBlocks(runs: seq<Run>): Result<seq<string>>
    decreases |runs|
  {
    if runs == [] then Ok([])
    else match RunBlocks(runs[..|runs| - 1])
      case Err(e) => Err(e)
      case Ok(front) =>
        match RunBlock(runs[|runs| - 1])
        case Err(e) => Err(e)
        case Ok(block) => Ok(front + block)
  }

  function OuterError(error: string): string {
    "❌ Error checking workflow runs: " + error
  }

  const CliNotFoundLines := [
    "❌ GitHub CLI (gh) not found",
    "💡 Install GitHub CLI: https://cli.github.com/",
    "",
    "🔧 Alternative: Check workflows manually",
    "   Visit: https://github.com/your-repo/actions"
  ]

  const NoRunsLine := "ℹ️  No workflow runs found"

  /** `b"not found" in stderr or b"No workflows found" in stderr`. */
  predicate NothingToList(stderr: string) {
    Contains(stderr, "not found") || Contains(stderr, "No workflows found")
  }

  /**
   * The report.  An unauthenticated CLI gets the banner and the
   * authentication messages; a missing CLI gets install advice; a failing
   * listing gets either the "no runs" hint or the error text; no runs get
   * the "no runs" line; otherwise a count line and one block per run.  An
   * exception raised on the way (undecodable output, a timestamp that is not
   * a string) replaces the whole report by a single error line.
   */
  method CheckWorkflowRuns(auth: AuthStatus, query: RunQuery) returns (lines: seq<string>, text: string)
    ensures text == Join("\n", lines)
    ensures !auth.authenticated ==> lines == Banner + auth.messages
    ensures auth.authenticated && query.CliNotFound? ==> lines == Banner + CliNotFoundLines
    ensures auth.authenticated && query.Finished? && query.code != 0 ==>
              lines == Banner + (if NothingToList(query.stderr)
                                 then [NoRunsLine, "💡 Check if this repository has GitHub Actions enabled"]
                                 else ["❌ Error getting workflow runs: " + query.stderr])
    ensures auth.authenticated && query.Finished? && query.code == 0 ==>
              match query.listing
              case Err(e) => lines == [OuterError(e)]
              case Ok(runs) =>
                if runs == [] then lines == Banner + [NoRunsLine]
                else match RunBlocks(runs)
                  case Err(e) => lines == [OuterError(e)]
                  case Ok(blocks) =>
                    lines == Banner + ["📊 Latest " + IntToString(|runs|) + " Workflow Runs:", ""] + blocks
  {
    lines := Banner;
    if !auth.authenticated {
      lines := lines + auth.messages;
      text := Join("\n", lines);
      return;
    }
    if query.CliNotFound? {
      lines := lines + CliNotFoundLines;
      text := Join("\n", lines);
      return;
    }
    if query.code != 0 {
      if NothingToList(query.stderr) {
        lines := lines + [NoRunsLine, "💡 Check if this repository has GitHub Actions enabled"];
      } else {
        lines := lines + ["❌ Error getting workflow runs: " + query.stderr];
      }
      text := Join("\n", lines);
      return;
    }
    if query.listing.Err? {
      lines := [OuterError(query.listing.error)];
      text := lines[0];
      return;
    }
    var runs := query.listing.value;
    if runs == [] {
      lines := lines + [NoRunsLine];
      text := Join("\n", lines);
      return;
    }
    var blocks := RenderRuns(runs);
    if blocks.Err? {
      lines := [OuterError(blocks.error)];
      text := lines[0];
      return;
    }
    lines := lines + ["📊 Latest " + IntToString(|runs|) + " Workflow Runs:", ""] + blocks.value;
    text := Join("\n", lines);
  }

  /**
   * The loop over the runs: append each run's block in turn, stopping at the
   * first run whose timestamp cannot be sliced.
   */
  method RenderRuns(runs: seq<Run>) returns (r: Result<seq<string>>)
    ensures r == RunBlocks(runs)
  {
    var blocks: seq<string> := [];
    var i := 0;
    while i < |runs|
      invariant 0 <= i <= |runs|
      invariant RunBlocks(runs[..i]) == Ok(blocks)
    {
      assert runs[..i + 1][..i] == runs[..i];
      var block := RunBlock(runs[i]);
      if block.Err? {
        RunBlocksFailurePersists(runs, i + 1);
        return block;
      }
      blocks := blocks + block.value;
      i := i + 1;
    }
    assert runs[..i] == runs;
    return Ok(blocks);
  }

  /** Once a run fails to render, so does every longer prefix, with the first failure's message. */
  lemma {:induction false} RunBlocksFailurePersists(runs: seq<Run>, n: nat)
    requires n <= |runs| && RunBlocks(runs[..n]).Err?
    ensures RunBlocks(runs) == RunBlocks(runs[..n])
    decreases |runs| - n
  {
    if n < |runs| {
      assert runs[..n + 1][..n] == runs[..n];
      RunBlocksFailurePersists(runs, n + 1);
    } else {
      assert runs[..n] == runs;
    }
  }

  // ---------------------------------------------------------------- properties of the rendering

  /**
   * The icon table: a completed run shows its conclusion, every other run its
   * status, and unknown values get the catch-all icons.
   */
  lemma StatusIconTable(status: Json, conclusion: Json)
    ensures StatusIcon(status, conclusion) == "✅" <==> status == JStr("completed") && conclusion == JStr("success")
    ensures StatusIcon(status, conclusion) == "❌" <==> status == JStr("completed") && conclusion == JStr("failure")
    ensures StatusIcon(status, conclusion) == "🚫" <==> status == JStr("completed") && conclusion == JStr("cancelled")
    ensures StatusIcon(status, conclusion) == "⚠️"
            <==> status == JStr("completed") && conclusion !in {JStr("success"), JStr("failure"), JStr("cancelled")}
    ensures StatusIcon(status, conclusion) == "🔄" <==> status == JStr("in_progress")
    ensures StatusIcon(status, conclusion) == "⏳" <==> status == JStr("queued")
    ensures StatusIcon(status, conclusion) == "❓"
            <==> status !in {JStr("completed"), JStr("in_progress"), JStr("queued")}
  {
    var icons := ["✅", "❌", "🚫", "⚠️", "🔄", "⏳", "❓"];
    assert forall i, j :: 0 <= i < j < |icons| ==> icons[i] != icons[j] by {
      assert icons[3][0] == '⚠';
    }
  }

  /** The conclusion is consulted only for a completed run. */
  lemma ConclusionIgnoredUnlessCompleted(status: Json, c1: Json, c2: Json)
    requires status != JStr("completed")
    ensures StatusIcon(status, c1) == StatusIcon(status, c2)
  {
  }

  /**
   * The creation line shows at most the first 19 characters of the stamp, with
   * every 'T' turned into a space and everything else kept.
   */
  lemma CreatedTextIsDateAndTime(s: string)
    ensures var r := CreatedText(JStr(s)).value;
      |r| == (if |s| < 19 then |s| else 19)
      && forall i :: 0 <= i < |r| ==> r[i] == (if s[i] == 'T' then ' ' else s[i])
  {
  }

  /**
   * A block has five lines, or six when the URL is truthy, the URL line then
   * coming right after the run id; the block always ends with a blank line.
   */
  lemma RunBlockShape(run: Run)
    requires StampIsText(run)
    ensures RunBlock(run).Ok?
    ensures var b := RunBlock(run).value;
      var url := Get(run, "url", "");
      |b| == (if Truthy(url) then 6 else 5)
      && b[|b| - 1] == ""
      && (Truthy(url) ==> b[4] == "   URL: " + Display(url))
  {
  }

  /** A run whose timestamp cannot be sliced makes the whole rendering fail. */
  lemma RunBlocksFailAt(runs: seq<Run>, i: nat)
    requires i < |runs| && !StampIsText(runs[i])
    ensures RunBlocks(runs).Err?
  {
    var p := runs[..i + 1];
    assert p[..i] == runs[..i] && p[i] == runs[i];
    assert RunBlocks(p).Err?;
    RunBlocksFailurePersists(runs, i + 1);
  }

  /**
   * When every timestamp is a string (or absent) the rendering succeeds, with
   * at least five lines per run.
   */
  lemma {:induction false} RunBlocksSucceed(runs: seq<Run>)
    requires forall i :: 0 <= i < |runs| ==> StampIsText(runs[i])
    ensures RunBlocks(runs).Ok?
    ensures |RunBlocks(runs).value| >= 5 * |runs|
    decreases |runs|
  {
    if runs != [] {
      var front := runs[..|runs| - 1];
      assert forall i :: 0 <= i < |front| ==> front[i] == runs[i];
      RunBlocksSucceed(front);
      RunBlockShape(runs[|runs| - 1]);
    }
  }
}

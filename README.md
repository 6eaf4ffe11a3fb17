# Docker build-environment MCP server: report logic

The server exposes a C++ project's Docker build environment as MCP tools.
Each tool runs something (a docker-compose command, the GitHub CLI, a YAML
loader, a directory scan) and turns what came back into a text report: a list
of lines joined with `'\n'`. This project models, in Dafny, everything the
tools decide once those outside results are in hand. That covers:

- the argument vectors the server builds;
- the branches it takes on exit codes, exceptions, missing files and missing keys;
- the exact lines it writes, in order.

The external results become input values: a process outcome, a probe exit
code, a decoded JSON run list, a loaded YAML document, a set of existing file
names.

Modules, one per part of `mcp-server.py`:

- `PyText` (`text.dfy`): the Python string operations the report code uses.
  These are `strip`, `split('\n')`, `split()`, `lower`, `in`, `join`,
  `str(int)`, slicing and `replace`. Their laws are proved here, for instance
  that `split` inverts `join` and that `str(int)` can be parsed back.
- `OutputFormat` (`output_format.dfy`): `_format_command_output` tags each
  line of standard output with an icon by keyword. `_format_error_output`
  keeps the non-blank lines of standard error behind a fire icon.
- `DockerRunner` (`docker_runner.dfy`): `_run_docker_command` builds the
  command and writes the report of the run.
- `GitHubAuth` (`github_auth.dfy`): `_check_github_auth`.
- `WorkflowRuns` (`workflow_runs.dfy`): `_check_workflow_runs`.
- `WorkflowYaml` (`workflow_yaml.dfy`): `_validate_workflow_yaml` and the
  structural checks of a workflow document. These include the Python
  TypeErrors that `in` and indexing raise on documents that are not mappings.
- `TestStructure` (`test_structure.dfy`): `_validate_test_structure`, and the
  `with_suffix('.json')` rule that pairs each YAML test case with its JSON file.
- `Wrappers` (`wrappers.dfy`): `Option` and `Result`.

The loops that build a list step by step (formatting lines, collecting
errors, rendering runs, validating files, sorting test files) are methods
with `while` loops. Each is proved equal to a specification function, and the
properties are proved about those functions as lemmas. The three short loops
of `_validate_test_structure` that only prefix each item with a bullet
(mcp-server.py:534-535, 539-540 and 551-552) are modelled by the function
`TestStructure.Section`, built on `PyText.Prefixed`, and not as methods.

Two consequences of the keyword rule of `_format_command_output` are easy to
miss. `OutputFormat.FormatLineCases` states the rule that decides both:

- "Checking... 0 warnings" gets the warning icon, because the line contains
  "warning".
- "Build succeeded despite 1 error warning" also gets the warning icon, because
  "succeeded" does not contain "success".

## Model

| member | source | states |
|---|---|---|
| OutputFormat.OutputLines | mcp-server.py:590 | stripping and splitting on '\n' gives at least one line, none containing '\n' |
| OutputFormat.FormatAll | mcp-server.py:593-602 | one formatted line per input line, in the same order |
| OutputFormat.Classify | mcp-server.py:595-602 | the tag of a line of standard output; characterised by OutputFormat.FormatLineCases, OutputFormat.SuccessBeatsError and OutputFormat.ClassifyIgnoresCase |
| OutputFormat.FormatLine | mcp-server.py:596-602 | one formatted line; OutputFormat.FormatLineCases gives its four cases in both directions |
| OutputFormat.FormatCommandOutput | mcp-server.py:588-604 | the loop returns exactly the classified text: each stripped line formatted, joined with '\n' |
| OutputFormat.FormatLineCases | mcp-server.py:594-602 | each line comes back behind the success icon iff it mentions a success word, behind the warning icon iff it mentions "warning" and no success word, behind the error icon iff "error" only, and unchanged otherwise |
| OutputFormat.IconsDiffer | mcp-server.py:596-602 | the four renderings of a line are pairwise different, so the tag can be read back from the output |
| OutputFormat.ClassifyIgnoresCase | mcp-server.py:595-599 | lines that agree once lower-cased get the same tag |
| OutputFormat.SuccessBeatsError | mcp-server.py:595-600 | a line mentioning both "error" and a success word is tagged as a success |
| OutputFormat.BlankLinePassesThrough | mcp-server.py:601-602 | a whitespace-only line is passed through without an icon |
| OutputFormat.ReclassifyRendered | mcp-server.py:595-602 | classifying a rendered line again, icon included, gives the original tag |
| OutputFormat.ClassifiedTextLines | mcp-server.py:588-604 | splitting the classified text on '\n' gives back one formatted line per stripped input line |
| OutputFormat.FormatErrorOutput | mcp-server.py:606-615 | the loop returns exactly the highlighted text: the non-blank stripped lines behind the fire icon |
| OutputFormat.Highlight | mcp-server.py:611-613 | the kept error lines; characterised by OutputFormat.HighlightContents and OutputFormat.HighlightAppend |
| OutputFormat.HighlightAppend | mcp-server.py:611-613 | highlighting works line by line: highlighting a concatenation concatenates the highlights |
| OutputFormat.HighlightContents | mcp-server.py:611-613 | the output never has more lines than the input, every output line is a non-blank input line behind the icon, and every non-blank input line appears |
| OutputFormat.HighlightNeverBlank | mcp-server.py:612-613 | no highlighted line is blank |
| OutputFormat.HighlightedTextLines | mcp-server.py:606-615 | the text is empty when standard error holds only blank lines; otherwise it splits back into exactly the highlighted lines |
| DockerRunner.Argv | mcp-server.py:417-421 | a compose command gives docker-compose followed by exactly the whitespace-split words of the command (`Words`, which PyText.WordsAreSplitAtSpace shows to be `str.split()`): non-empty, free of whitespace and together holding every non-space character; a one-off command gives `run --rm` and the command as one argument |
| DockerRunner.RunDockerCommand | mcp-server.py:400-477 | per outcome: the environment failure, exception and timeout messages each stand alone; a finished run gets description, command, time and a blank line, then the success or exit-code section with the stream sections each present only when the stream is non-empty |
| DockerRunner.ResultLines | mcp-server.py:454-466 | exit code 0 gives the success banner and the classified standard output when there is any; any other code gives the exit-code line, then the highlighted standard error, then the classified standard output, each only when non-empty |
| DockerRunner.FailureBannerNamesCode | mcp-server.py:460 | two different exit codes never give the same failure line |
| DockerRunner.TimeoutMessageNamesBound | mcp-server.py:438-443 | two different timeouts never give the same timeout message for one command |
| DockerRunner.OneShotLine | mcp-server.py:421 | the command line shown for a one-off command is `docker-compose run --rm ` followed by the command, spaces and all |
| DockerRunner.ComposeWordsArrive | mcp-server.py:418 | a compose command written as words separated by single spaces reaches docker-compose as exactly those words |
| GitHubAuth.CheckGitHubAuth | mcp-server.py:211-285 | authenticated exactly when both probes exit with 0, and then the only message is the authenticated line; there is always at least one message |
| GitHubAuth.AuthProbeIgnoredWhenCliMissing | mcp-server.py:222-230 | when `gh --version` fails or raises, neither the login probe nor the token affects the result, which is unauthenticated |
| GitHubAuth.TokenOnlyChangesSetupSteps | mcp-server.py:246-276 | the token never changes the verdict, and changes the messages exactly when the CLI is installed but not logged in; there it swaps only the setup steps (9 against 10 lines, same opening lines, same token requirements) |
| GitHubAuth.FailureOpensWithCross | mcp-server.py:222-285 | every unauthenticated result opens with a cross-marked line |
| GitHubAuth.InstallAdviceMeansCliFailed | mcp-server.py:222-230 | the install advice is given exactly when `gh --version` exits with a non-zero code |
| WorkflowRuns.RunListArgv | mcp-server.py:128-132 | `gh run list --limit`, then an argument that reads back as the limit, then `--json` and a field list that splits on commas into the eight requested fields; `--workflow` and the name follow exactly when the name is truthy |
| WorkflowRuns.RunFieldsSplit | mcp-server.py:129 | the comma-separated field list splits back into the eight field names |
| WorkflowRuns.StatusIcon | mcp-server.py:172-186 | the icon of a run; WorkflowRuns.StatusIconTable gives every icon in both directions |
| WorkflowRuns.BlockLines | mcp-server.py:188-194 | the lines of one run; WorkflowRuns.RunBlockShape gives their number, the URL line and the closing blank line |
| WorkflowRuns.NothingToList | mcp-server.py:145 | the "no runs" hint is chosen exactly when stderr contains "not found" or "No workflows found"; WorkflowRuns.CheckWorkflowRuns states the lines of both branches |
| WorkflowRuns.CreatedText | mcp-server.py:190 | slicing the timestamp succeeds exactly when it is a string |
| WorkflowRuns.RunBlock | mcp-server.py:163-194 | a run renders exactly when its timestamp, or the default for a missing one, is a string |
| WorkflowRuns.CheckWorkflowRuns | mcp-server.py:113-209 | per case: auth messages after the banner when not authenticated; install advice when gh is missing; the no-runs hint or the error text on a failing listing; the no-runs line for an empty list; the count line and all run blocks otherwise; a single error line when decoding or rendering raised |
| WorkflowRuns.RenderRuns | mcp-server.py:162-194 | the loop appends each run's block in order and stops at the first run that raises, with that error |
| WorkflowRuns.RunBlocksFailurePersists | mcp-server.py:162-194 | once a prefix of the runs fails to render, the whole list fails with the same error |
| WorkflowRuns.StatusIconTable | mcp-server.py:172-186 | the icon table in both directions: each icon is shown exactly for its status, and for its conclusion when the run is completed |
| WorkflowRuns.ConclusionIgnoredUnlessCompleted | mcp-server.py:172-186 | the conclusion affects the icon only for a completed run |
| WorkflowRuns.CreatedTextIsDateAndTime | mcp-server.py:190 | the creation text is the first 19 characters of the stamp or fewer, with each 'T' replaced by a space and nothing else changed |
| WorkflowRuns.RunBlockShape | mcp-server.py:188-194 | a block has five lines, or six when the URL is truthy with the URL line after the run id, and ends with a blank line |
| WorkflowRuns.RunBlocksFailAt | mcp-server.py:162-194 | one run whose timestamp is not a string makes the whole rendering fail |
| WorkflowRuns.RunBlocksSucceed | mcp-server.py:162-194 | when every timestamp is a string the rendering succeeds, with at least five lines per run |
| WorkflowYaml.Lookup | mcp-server.py:340 | a key is found exactly when some entry has it |
| WorkflowYaml.PyIn | mcp-server.py:332-339 | `in` raises exactly on a null, boolean or integer document |
| WorkflowYaml.PyIndex | mcp-server.py:340 | indexing by `'jobs'` after the membership test succeeds exactly on a mapping, giving the stored value |
| WorkflowYaml.JobErrors | mcp-server.py:344-356 | every error about a job starts with `Job '<name>' ` for that job's name |
| WorkflowYaml.JobsErrors | mcp-server.py:344-356 | every error from the job loop starts with `Job '<name>' ` for the name of one of the jobs |
| WorkflowYaml.CheckJobs | mcp-server.py:344-356 | the loop over the jobs yields the errors of each job in turn |
| WorkflowYaml.CheckJob | mcp-server.py:345-356 | a job that is not a mapping gets one error and nothing else; otherwise the runs-on check, then the container-image check |
| WorkflowYaml.ValidateStructure | mcp-server.py:328-361 | the checks in source order equal the declarative errors: trigger, jobs, per-job, self-hosted; or the TypeError a non-mapping document raises |
| WorkflowYaml.StructureErrors | mcp-server.py:331-361 | the errors or the exception of one document; WorkflowYaml.ValidateStructure proves the source-order checks equal to it, and the ReportedOnce lemmas and WorkflowYaml.ScalarDocumentRaises characterise it |
| WorkflowYaml.MappingErrors | mcp-server.py:331-361 | the errors of a mapping document: trigger, jobs, per-job, self-hosted; characterised by WorkflowYaml.MissingOnReportedOnce, WorkflowYaml.MissingJobsReportedOnce and WorkflowYaml.JobsNotMappingReportedOnce |
| WorkflowYaml.SelfHostedBare | mcp-server.py:359-361 | the raw-text check on the lower-cased file: a self-hosted runner is mentioned and no `container:` is; WorkflowYaml.ValidateStructure adds the error exactly then |
| WorkflowYaml.FileReport | mcp-server.py:363-378 | the report of one file; WorkflowYaml.ValidIffNoErrors and WorkflowYaml.ReportFile characterise it |
| WorkflowYaml.NamedIsJobError | mcp-server.py:346-356 | a message that names a job has the common per-job opening |
| WorkflowYaml.BulletLines | mcp-server.py:365-366 | the loop writes exactly those bullets |
| WorkflowYaml.ValidateFiles | mcp-server.py:318-378 | the reports of all files in order, and the overall flag is true exactly when every file loaded and has no errors |
| WorkflowYaml.ReportFile | mcp-server.py:320-378 | one file's lines: loading and other errors, the warning header with bullets, or the single valid line; passes exactly when valid |
| WorkflowYaml.ValidateWorkflowYaml | mcp-server.py:287-392 | the missing directory, missing requested file and empty selection cases each end after the banner with one line; otherwise the count, the per-file reports, the verdict for all files and the helpful commands |
| WorkflowYaml.ScalarDocumentRaises | mcp-server.py:332 | a null, boolean or integer document makes the first membership test raise, with Python's message for None; a string document goes through the substring tests instead |
| WorkflowYaml.TopLevelMessagesNameNoJob | mcp-server.py:333-361 | none of the document-level messages looks like a per-job message |
| WorkflowYaml.MissingOnReportedOnce | mcp-server.py:332-333 | a mapping without `on` gets the trigger error first and only once |
| WorkflowYaml.MissingJobsReportedOnce | mcp-server.py:335-339 | a mapping without `jobs` gets that error once and no per-job error |
| WorkflowYaml.JobsNotMappingReportedOnce | mcp-server.py:339-342 | a non-mapping `jobs` value adds exactly one error and no per-job error |
| WorkflowYaml.JobNotMappingSkipsChecks | mcp-server.py:345-347 | a job that is not a mapping gets only the must-be-a-dictionary error |
| WorkflowYaml.ContainerImageCheck | mcp-server.py:353-356 | a job with runs-on gets an error exactly when its container is a mapping without `image` |
| WorkflowYaml.ValidIffNoErrors | mcp-server.py:363-369 | a file is valid exactly when its report is one line, and that line is the valid line |
| TestStructure.LastDot | mcp-server.py:545 | the position of the last dot of the name, or -1 when there is none |
| TestStructure.JsonSibling | mcp-server.py:545 | the sibling name ends in `.json` after a prefix of the original name; TestStructure.JsonSiblingOfYaml and TestStructure.JsonSiblingOfDotName pin the two cases |
| TestStructure.JsonSiblingOfYaml | mcp-server.py:545 | the JSON sibling of `stem.yaml` is `stem.json` |
| TestStructure.JsonSiblingOfDotName | mcp-server.py:545 | a name whose only dot comes first has no suffix, so `.json` is appended |
| TestStructure.PartitionYaml | mcp-server.py:521-530 | the loop yields the valid names and the invalid entries, in glob order |
| TestStructure.PartitionIsExact | mcp-server.py:524-530 | every file lands on exactly one list, loaded files on the valid one and the others, with their error, on the invalid one |
| TestStructure.ValidNamesLoaded | mcp-server.py:524-528 | every valid name belongs to a file that loaded |
| TestStructure.MissingJson | mcp-server.py:543-547 | the loop yields the names whose JSON sibling is missing, in glob order |
| TestStructure.MissingJsonExact | mcp-server.py:543-547 | a name is listed exactly when it is a file's name and its JSON sibling does not exist, whether or not it loaded |
| PyText.Prefixed | mcp-server.py:534-552 | the bullet lists: one line per item, in order, each the item behind the same prefix |
| TestStructure.ValidateTestStructure | mcp-server.py:500-557 | the missing directory gives one line; otherwise the header with both counts, then the valid, invalid and JSON-less sections, each present only when non-empty |
| PyText.StripIsInnerSlice | mcp-server.py:590 | `strip()` returns a slice of its input that neither starts nor ends with whitespace |
| PyText.StripEmptyIffAllSpace | mcp-server.py:612 | `line.strip()` is empty exactly when the line is all whitespace |
| PyText.TrimStartRemovesLeadingSpace | mcp-server.py:590 | trimming the start removes exactly the leading whitespace |
| PyText.TrimEndRemovesTrailingSpace | mcp-server.py:590 | trimming the end removes exactly the trailing whitespace |
| PyText.Lower | mcp-server.py:595 | lower-casing keeps the length |
| PyText.LowerAppend | mcp-server.py:359 | lower-casing distributes over concatenation |
| PyText.ContainsAfterForeignPrefix | mcp-server.py:595-599 | a prefix that cannot start the word does not change whether the word occurs |
| PyText.NoWordInBlank | mcp-server.py:595-599 | a word that starts with a non-space character never occurs in blank text |
| PyText.Split | mcp-server.py:590 | `split` gives at least one piece, none containing the separator |
| PyText.JoinSplit | mcp-server.py:590 | joining the pieces of a split gives back the text |
| PyText.SplitJoin | mcp-server.py:604 | splitting a join of separator-free pieces gives back the pieces |
| PyText.SplitAppend | mcp-server.py:590 | splitting text with a separator after a separator-free head yields the head and then the split of the rest |
| PyText.SplitNoSeparator | mcp-server.py:590 | text without the separator splits into itself |
| PyText.JoinGluesHead | mcp-server.py:470 | text glued to the first piece reappears in front of the join |
| PyText.JoinAppend | mcp-server.py:470 | joining two non-empty lists puts the separator between their joins |
| PyText.WordLength | mcp-server.py:418 | the first word runs to the first whitespace |
| PyText.Words | mcp-server.py:418 | `split()` gives non-empty words without whitespace |
| PyText.WordsAreSplitAtSpace | mcp-server.py:418 | `split()` equals cutting at every whitespace character and dropping the empty pieces, so the words are the maximal runs of non-whitespace |
| PyText.SplitAtSpaceAfterWord | mcp-server.py:418 | a whitespace-free head only extends the first piece of the cut |
| PyText.WordsOfJoin | mcp-server.py:418 | words joined by single spaces split back into the same words |
| PyText.WordLengthOfWord | mcp-server.py:418 | a whitespace-free head followed by whitespace or nothing is exactly the first word |
| PyText.WordsKeepEveryNonSpace | mcp-server.py:418 | the words together hold exactly the non-whitespace characters, in order |
| PyText.WithoutSpacesAppend | mcp-server.py:418 | dropping whitespace distributes over concatenation |
| PyText.WithoutSpacesOf | mcp-server.py:418 | dropping whitespace empties blank text and keeps text without whitespace |
| PyText.ReplaceChar | mcp-server.py:190 | `replace` changes each occurrence of the character and nothing else |
| PyText.NatToString | mcp-server.py:128 | `str(n)` of a natural number is non-empty decimal digits without a leading zero |
| PyText.ParseNatToString | mcp-server.py:128 | parsing the digits back gives the number |
| PyText.IntToStringRoundTrip | mcp-server.py:460 | `str(i)` of any integer is integer text that parses back to i |
| PyText.NegativeRoundTrip | mcp-server.py:460 | the text of a negative number parses back to it |
| PyText.MiddleDetermined | mcp-server.py:442 | a message with fixed text around a field determines the field |

## Left out

- Starting processes (`docker-compose`, `gh`), waiting for them and killing
  them on timeout. How each run or probe ended is an input value (`Outcome`,
  `Probe`, `RunQuery`).
- The clock. The measured duration arrives already formatted with `:.2f`.
- `_validate_docker_environment` and `_get_project_status`. They only probe
  the host; the environment check's result arrives as `Outcome.EnvInvalid`.
- The MCP server plumbing: tool registration, argument dispatch, `run()`,
  stdio transport and the command-line entry point. It holds no report logic.
- Parsing of YAML and JSON. The loaded value is an input, and so is the error
  text the loader raised. A YAML 1.1 loader such as PyYAML reads the key `on`
  as the boolean `True`, so the source reports a missing trigger for such a
  workflow; the model does too (`WorkflowYaml.MissingOnReportedOnce`).
- Filesystem access: `exists()`, `glob`, `open`, `read`. Their results are
  inputs: a flag, the list of files in glob order, the set of existing names.
- `os.getenv`. Whether `GITHUB_TOKEN` or `GH_TOKEN` holds a non-empty value arrives as one boolean, `tokenInEnv`.
- Floats, dates, duplicate keys and unhashable keys in YAML documents. Mapping
  keys are scalars, and `Lookup` takes the first match.
- JSON floats, arrays and objects as run fields, and run-list elements that are not
  objects. Each run is a map from field names to null, boolean, integer or
  string values; a float `databaseId` would print in Python's float form. So the
  exceptions that `len(runs)` and `run.get` raise on other JSON values
  (mcp-server.py:159 and 163) are not modelled.
- `bytes.decode()` of process output. Streams are text. The substring test on
  stderr is done on that text.
- `str.lower()` and `str.isspace()` beyond the characters they normally meet.
  `Lower` folds ASCII letters only. `IsSpace` is the whitespace set of Python's
  `str.isspace`.
- The outermost `except Exception` handlers at mcp-server.py:394-398 and
  mcp-server.py:559-563. Within the model nothing can raise there. The handler
  at mcp-server.py:205-209 is modelled for two of the exceptions that reach
  it: a listing that fails to decode, and a timestamp that cannot be sliced.
  Three others are left out: a `UnicodeDecodeError` from `stderr.decode()`
  (mcp-server.py:149), an `OSError` other than `FileNotFoundError` when
  starting `gh` (mcp-server.py:135), and a listing that is not a list of
  objects.
- `str(e)` texts of exceptions raised by code outside the model. They arrive
  as strings. The TypeError texts modelled in `PyIn`, `PyIndex` and
  `CreatedText` are those of CPython 3.11 and 3.12. Earlier versions word the
  string-index message differently ("string indices must be integers").

/**
 * `_run_docker_command`: build the docker-compose argument vector for a named
 * operation, and turn the way the run ended into the ordered report lines that
 * the server sends back, joined with '\n'.
 *
 * Launching the process, the timeout race and the clock are not modelled: the
 * run's end is given as an `Outcome` value, and the measured duration arrives
 * already formatted (the `{execution_time:.2f}` text).
 */
module DockerRunner {
  import opened PyText
  import opened OutputFormat

  const Compose := "docker-compose"

  const EnvironmentFailure :=
    "❌ Docker environment validation failed. Please ensure Docker is running and docker-compose.yml exists."

  /** How one invocation ended, as far as the report is concerned. */
  datatype Outcome =
    | EnvInvalid                  // the environment check failed; nothing was started
    | Raised(error: string)       // an exception escaped (the executable is missing, say); `str(e)`
    | TimedOut                    // the timeout elapsed first and the process was killed
    | Completed(code: int, stdout: string, stderr: string, duration: string)

  /**
   * The argument vector.  A compose command is `docker-compose` followed by the
   * whitespace-separated words of `command` (`Words`, which
   * `PyText.WordsAreSplitAtSpace` shows to be Python's `split()`): non-empty,
   * free of whitespace and together holding every other character of the
   * command.  Any other command runs in a throw-away container and is passed
   * on as one single argument.
   */
  function Argv(command: string, composeCommand: bool): (argv: seq<string>)
    ensures |argv| >= 1 && argv[0] == Compose
    ensures composeCommand ==> argv[1..] == Words(command)
    ensures composeCommand ==>
              (forall i :: 1 <= i < |argv| ==> argv[i] != "" && NoSpace(argv[i]))
              && Concat(argv[1..]) == WithoutSpaces(command)
    ensures !composeCommand ==> argv == [Compose, "run", "--rm", command]
  {
    if composeCommand then
      WordsKeepEveryNonSpace(command);
      var argv := [Compose] + Words(command);
      assert argv[1..] == Words(command);
      argv
    else [Compose, "run", "--rm", command]
  }

  /** `' '.join(cmd)`. */
  function CommandLine(argv: seq<string>): string {
    Join(" ", argv)
  }

  function TimeoutMessage(timeout: int, argv: seq<string>): string {
    "❌ Command timed out after " + IntToString(timeout) + " seconds: " + CommandLine(argv)
  }

  function FailureBanner(code: int): string {
    "❌ Failed with exit code " + IntToString(code)
  }

  /**
   * The report for one invocation.  A failed environment check, an exception
   * and a timeout each give a single message with no command, time or output
   * lines.  A finished run gives the description, command and time lines and a
   * blank line; then, on exit code 0, the success banner and the classified
   * standard output if there is any; otherwise the exit-code line, the
   * highlighted standard error if there is any, then the classified standard
   * output if there is any.
   */
  method RunDockerCommand(command: string, description: string, timeout: int, composeCommand: bool,
                          outcome: Outcome)
    returns (lines: seq<string>, text: string)
    ensures text == Join("\n", lines)
    ensures outcome.EnvInvalid? ==> lines == [EnvironmentFailure]
    ensures outcome.Raised? ==> lines == ["❌ Error executing command: " + outcome.error]
    ensures outcome.TimedOut? ==> lines == [TimeoutMessage(timeout, Argv(command, composeCommand))]
    ensures outcome.Completed? ==>
              |lines| >= 5
              && lines[..4] == ["🚀 " + description,
                                "📋 Command: " + CommandLine(Argv(command, composeCommand)),
                                "⏱️  Execution time: " + outcome.duration + "s",
                                ""]
    ensures outcome.Completed? && outcome.code == 0 ==>
              lines[4] == "✅ Success!"
              && lines[5..] == (if outcome.stdout == "" then [] else ["📄 Output:", ClassifiedText(outcome.stdout)])
    ensures outcome.Completed? && outcome.code != 0 ==>
              var err := if outcome.stderr == "" then [] else ["🔥 Error output:", HighlightedText(outcome.stderr)];
              var out := if outcome.stdout == "" then [] else ["📄 Standard output:", ClassifiedText(outcome.stdout)];
              lines[4] == FailureBanner(outcome.code) && lines[5..] == err + out
  {
    if outcome.EnvInvalid? {
      lines := [EnvironmentFailure];
      text := EnvironmentFailure;
      return;
    }
    var cmd: seq<string>;
    if composeCommand {
      cmd := [Compose] + Words(command);
    } else {
      cmd := [Compose, "run", "--rm", command];
    }
    assert cmd == Argv(command, composeCommand);
    match outcome {
      case Raised(e) =>
        text := "❌ Error executing command: " + e;
        lines := [text];
      case TimedOut =>
        text := "❌ Command timed out after " + IntToString(timeout) + " seconds: " + Join(" ", cmd);
        lines := [text];
      case Completed(code, stdout, stderr, duration) =>
        var header := ["🚀 " + description,
                       "📋 Command: " + Join(" ", cmd),
                       "⏱️  Execution time: " + duration + "s",
                       ""];
        var body := ResultLines(code, stdout, stderr);
        lines := header + body;
        assert lines[..4] == header && lines[4..] == body;
        text := Join("\n", lines);
    }
  }

  /**
   * The lines after the header of a finished run: the verdict, then the
   * standard error (on failure only) and the standard output, each section
   * present only when its stream is non-empty.
   */
  method ResultLines(code: int, stdout: string, stderr: string) returns (body: seq<string>)
    ensures |body| >= 1
    ensures code == 0 ==>
              body[0] == "✅ Success!"
              && body[1..] == (if stdout == "" then [] else ["📄 Output:", ClassifiedText(stdout)])
    ensures code != 0 ==>
              var err := if stderr == "" then [] else ["🔥 Error output:", HighlightedText(stderr)];
              var out := if stdout == "" then [] else ["📄 Standard output:", ClassifiedText(stdout)];
              body[0] == FailureBanner(code) && body[1..] == err + out
  {
    if code == 0 {
      body := ["✅ Success!"];
      if stdout != "" {
        var formatted := FormatCommandOutput(stdout);
        body := body + ["📄 Output:", formatted];
      }
    } else {
      body := ["❌ Failed with exit code " + IntToString(code)];
      var err: seq<string> := [];
      if stderr != "" {
        var formatted := FormatErrorOutput(stderr);
        err := ["🔥 Error output:", formatted];
      }
      var out: seq<string> := [];
      if stdout != "" {
        var formatted := FormatCommandOutput(stdout);
        out := ["📄 Standard output:", formatted];
      }
      body := body + err + out;
    }
  }

  // ---------------------------------------------------------------- properties of the report

  /** The exit-code line tells exit codes apart: two different codes never print the same line. */
  lemma FailureBannerNamesCode(a: int, b: int)
    requires FailureBanner(a) == FailureBanner(b)
    ensures a == b
  {
    var p := "❌ Failed with exit code ";
    assert p + IntToString(a) + "" == p + IntToString(b) + "";
    MiddleDetermined(p, IntToString(a), IntToString(b), "");
    IntToStringRoundTrip(a);
    IntToStringRoundTrip(b);
  }

  /** The timeout message tells timeout bounds apart, whatever the command was. */
  lemma TimeoutMessageNamesBound(a: int, b: int, argv: seq<string>)
    requires TimeoutMessage(a, argv) == TimeoutMessage(b, argv)
    ensures a == b
  {
    var p, q := "❌ Command timed out after ", " seconds: " + CommandLine(argv);
    var sa, sb := IntToString(a), IntToString(b);
    assert p + sa + q == TimeoutMessage(a, argv);
    assert p + sb + q == TimeoutMessage(b, argv);
    MiddleDetermined(p, sa, sb, q);
    IntToStringRoundTrip(a);
    IntToStringRoundTrip(b);
  }

  /** A compose command written as words separated by single spaces reaches docker-compose as those words. */
  lemma ComposeWordsArrive(words: seq<string>)
    requires forall i :: 0 <= i < |words| ==> words[i] != "" && NoSpace(words[i])
    ensures Argv(Join(" ", words), true) == [Compose] + words
    ensures CommandLine(Argv(Join(" ", words), true)) == Join(" ", [Compose] + words)
  {
    WordsOfJoin(words);
  }

  /** A one-shot command reaches the container as a single argument, spaces and all. */
  lemma OneShotLine(command: string)
    ensures CommandLine(Argv(command, false)) == "docker-compose run --rm " + command
  {
    var rest := ["--rm", command];
    assert rest[1..] == [command];
    assert Join(" ", rest) == "--rm " + command;
    var tail := ["run", "--rm", command];
    assert tail[1..] == rest;
    assert Join(" ", tail) == "run --rm " + command;
    var argv := [Compose, "run", "--rm", command];
    assert argv[1..] == tail;
    assert Join(" ", argv) == Compose + " " + Join(" ", tail);
  }
}

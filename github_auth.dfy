/**
 * `_check_github_auth`: decide, from the outcome of the two `gh` probes and
 * the token environment, whether the GitHub CLI is usable and which messages
 * explain the situation to the user.
 *
 * The probes themselves (`gh --version`, then `gh auth status`) are not run:
 * each arrives as a `Probe`, its exit code or the exception that starting it
 * raised.  The environment lookup arrives as one boolean, `tokenInEnv`: whether
 * `os.getenv('GITHUB_TOKEN') or os.getenv('GH_TOKEN')` is truthy.
 */
module GitHubAuth {
  import opened Wrappers

  /** How one probe process ended. */
  datatype Probe = Exited(code: int) | Raised(error: string)

  /** The dictionary the check returns: `authenticated` and `messages`. */
  datatype AuthStatus = AuthStatus(authenticated: bool, messages: seq<string>)

  /** Python truthiness of an `os.getenv` result: set and non-empty. */
  predicate Truthy(v: Option<string>) {
    v.Some? && v.value != ""
  }

  const SetupScript := "./scripts/setup-github-auth.sh"

  const CliMissingMessages := [
    "❌ GitHub CLI not found",
    "💡 Install GitHub CLI in container: included in Dockerfile",
    "📚 Setup guide: " + SetupScript
  ]

  const AuthenticatedMessages := ["✅ GitHub CLI authenticated"]

  const TokenLoginSteps := [
    "  1. GITHUB_TOKEN found in environment",
    "  2. Run: echo $GITHUB_TOKEN | gh auth login --with-token"
  ]

  const TokenSetupSteps := [
    "  1. Set GITHUB_TOKEN environment variable",
    "  2. Run: docker-compose up -d mcp-server",
    "  3. Or run: " + SetupScript
  ]

  const TokenRequirements := [
    "",
    "🔑 Token requirements for private repos:",
    "  - repo (full control of private repositories)",
    "  - workflow (update GitHub Action workflows)",
    "  - read:org (read org and team membership)"
  ]

  /** The explanation shown when the CLI is present but not logged in. */
  function NotAuthenticatedMessages(tokenInEnv: bool): seq<string> {
    ["❌ GitHub CLI not authenticated", "🔧 Container setup:"]
    + (if tokenInEnv then TokenLoginSteps else TokenSetupSteps)
    + TokenRequirements
  }

  function ExceptionMessages(error: string): seq<string> {
    ["❌ Error checking GitHub auth: " + error, "💡 Run: " + SetupScript]
  }

  /**
   * The check.  A probe that could not be started (the executable is missing,
   * say) raises, which the check turns into the exception messages.
   */
  function CheckGitHubAuth(version: Probe, auth: Probe, tokenInEnv: bool): (r: AuthStatus)
    ensures r.authenticated <==> version == Exited(0) && auth == Exited(0)
    ensures r.authenticated ==> r.messages == AuthenticatedMessages
    ensures |r.messages| >= 1
  {
    match version
    case Raised(e) => AuthStatus(false, ExceptionMessages(e))
    case Exited(v) =>
      if v != 0 then AuthStatus(false, CliMissingMessages)
      else match auth
        case Raised(e) => AuthStatus(false, ExceptionMessages(e))
        case Exited(a) =>
          if a == 0 then AuthStatus(true, AuthenticatedMessages)
          else AuthStatus(false, NotAuthenticatedMessages(tokenInEnv))
  }

  // ---------------------------------------------------------------- properties of the check

  /** When `gh --version` fails, the login probe and the token are never consulted. */
  lemma AuthProbeIgnoredWhenCliMissing(version: Probe, auth1: Probe, auth2: Probe, t1: bool, t2: bool)
    requires version != Exited(0)
    ensures CheckGitHubAuth(version, auth1, t1) == CheckGitHubAuth(version, auth2, t2)
    ensures !CheckGitHubAuth(version, auth1, t1).authenticated
  {
  }

  /**
   * The token environment matters only when the CLI is installed but not logged
   * in, and there it changes only the setup steps: both variants share the two
   * opening lines and the token requirements that close them.
   */
  lemma TokenOnlyChangesSetupSteps(version: Probe, auth: Probe)
    ensures CheckGitHubAuth(version, auth, true).authenticated == CheckGitHubAuth(version, auth, false).authenticated
    ensures (CheckGitHubAuth(version, auth, true) != CheckGitHubAuth(version, auth, false))
            <==> version == Exited(0) && auth.Exited? && auth.code != 0
    ensures version == Exited(0) && auth.Exited? && auth.code != 0 ==>
              var withToken := CheckGitHubAuth(version, auth, true).messages;
              var without := CheckGitHubAuth(version, auth, false).messages;
              |withToken| == 9 && |without| == 10
              && withToken[..2] == without[..2]
              && withToken[4..] == without[5..] == TokenRequirements
  {
    var a := NotAuthenticatedMessages(true);
    var b := NotAuthenticatedMessages(false);
    assert a[2] != b[2];
  }

  /** Every unsuccessful outcome opens with a cross-marked line. */
  lemma FailureOpensWithCross(version: Probe, auth: Probe, tokenInEnv: bool)
    ensures var r := CheckGitHubAuth(version, auth, tokenInEnv);
      !r.authenticated ==> r.messages[0][0] == '❌'
  {
  }

  /** Only a failing `gh --version` yields the install advice. */
  lemma InstallAdviceMeansCliFailed(version: Probe, auth: Probe, tokenInEnv: bool)
    ensures CheckGitHubAuth(version, auth, tokenInEnv).messages == CliMissingMessages
            <==> version.Exited? && version.code != 0
  {
    var r := CheckGitHubAuth(version, auth, tokenInEnv);
    if version.Raised? || (version.code == 0 && auth.Raised?) {
      assert r.messages[0] != CliMissingMessages[0];
    } else if version.code == 0 && auth.code != 0 {
      assert |r.messages| != |CliMissingMessages|;
    }
  }
}

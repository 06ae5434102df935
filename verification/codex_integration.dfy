/**
  `CodexIntegration` from scripts/codex_integration.py: the classification of
  `codex --version`, the command line `run_codex_command` builds and the
  status it reports, the three prompt wrappers, and the branch of the entry
  point. Subprocess outcomes and the clock are inputs.
 */
module CodexIntegration {
  import opened Text
  import opened Host

  const ProjectRoot := "/home/ubuntu/simon-command-center"

  /** The dictionary `check_codex_auth` returns. */
  datatype AuthStatus =
    | Authenticated(version: string)
    | NeedsAuth(error: string)
    | NotInstalled(error: string)
    | AuthError(error: string)
  {
    /** The "status" field. */
    function Name(): string {
      match this
      case Authenticated(_) => "authenticated"
      case NeedsAuth(_) => "needs_auth"
      case NotInstalled(_) => "not_installed"
      case AuthError(_) => "error"
    }
  }

  /** `check_codex_auth` given the outcome of `codex --version` (10 s timeout). */
  function CheckCodexAuth(p: Process): (s: AuthStatus)
    ensures s.Authenticated? <==> p.Completed? && p.returncode == 0
    ensures s.Authenticated? ==> s.version == Strip(p.stdout)
    ensures s.NeedsAuth? <==> p.Completed? && p.returncode != 0
    ensures s.NeedsAuth? ==> s.error == p.stderr
    ensures s.NotInstalled? <==> p.Raised? && p.failure.FileNotFound?
    ensures s.NotInstalled? ==> s.error == "Codex CLI not found"
    ensures s.AuthError? <==> p.Raised? && !p.failure.FileNotFound?
    ensures s.AuthError? ==> s.error == p.failure.message
  {
    match p
    case Completed(rc, out, err) => if rc == 0 then Authenticated(Strip(out)) else NeedsAuth(err)
    case Raised(FileNotFound(_)) => NotInstalled("Codex CLI not found")
    case Raised(f) => AuthError(f.message)
  }

  /** The timeout of `codex --version` is reported as a generic error, not as a timeout of its own. */
  lemma VersionTimeoutIsError(message: string)
    ensures CheckCodexAuth(Raised(TimeoutExpired(message))) == AuthError(message)
    ensures CheckCodexAuth(Raised(TimeoutExpired(message))).Name() == "error"
  {
  }

  /** The command line `run_codex_command` passes to `subprocess.run`. */
  function CodexArgv(prompt: string, autoApprove: bool): (argv: seq<string>)
    ensures |argv| == if autoApprove then 4 else 3
    ensures argv[..2] == ["codex", "exec"] && argv[|argv| - 1] == prompt
    ensures argv[2..|argv| - 1] == if autoApprove then ["--full-auto"] else []
  {
    ["codex", "exec"] + (if autoApprove then ["--full-auto"] else []) + [prompt]
  }

  /** The in-place construction of `cmd` by `append` calls. */
  method BuildArgv(prompt: string, autoApprove: bool) returns (cmd: seq<string>)
    ensures cmd == CodexArgv(prompt, autoApprove)
  {
    cmd := ["codex", "exec"];
    if autoApprove {
      cmd := cmd + ["--full-auto"];
    }
    cmd := cmd + [prompt];
  }

  /** The dictionary `run_codex_command` returns. */
  datatype CodexRun =
    | Finished(returncode: int, stdout: string, stderr: string, timestamp: string)
    | TimedOut(error: string)
    | Errored(error: string)
  {
    /** The "status" field. */
    function Status(): string {
      match this
      case Finished(rc, _, _, _) => if rc == 0 then "success" else "error"
      case TimedOut(_) => "timeout"
      case Errored(_) => "error"
    }
  }

  const TimeoutMessage := "Command timed out after 5 minutes"

  /**
    The dictionary `run_codex_command` returns: the chdir error (the command
    line is never run), the completed run echoed with the clock, or the
    fixed timeout message; "success" exactly for a completed run with exit code 0.
   */
  function CodexOutcome(chdir: Option<string>, run: Process, timestamp: string): (r: CodexRun)
    ensures chdir.Some? ==> r == Errored(chdir.value)
    ensures chdir.None? && run.Completed? ==>
              r == Finished(run.returncode, run.stdout, run.stderr, timestamp)
    ensures chdir.None? && run.Raised? ==>
              r == if run.failure.TimeoutExpired? then TimedOut(TimeoutMessage) else Errored(run.failure.message)
    ensures r.Status() == "success" <==> chdir.None? && run.Completed? && run.returncode == 0
    ensures r.Status() == "timeout" <==> chdir.None? && run.Raised? && run.failure.TimeoutExpired?
  {
    match chdir
    case Some(e) => Errored(e)
    case None =>
      match run
      case Completed(rc, out, err) => Finished(rc, out, err, timestamp)
      case Raised(TimeoutExpired(_)) => TimedOut(TimeoutMessage)
      case Raised(f) => Errored(f.message)
  }

  /**
    `run_codex_command`: `chdir` says whether changing into the project root
    raised (and with what text); `run` is the outcome of the subprocess for
    the command line returned in `argv` (empty when the chdir raised first).
   */
  method RunCodexCommand(prompt: string, autoApprove: bool, chdir: Option<string>, run: Process, timestamp: string)
    returns (argv: seq<string>, r: CodexRun)
    ensures chdir.Some? ==> argv == [] && r == Errored(chdir.value)
    ensures chdir.None? ==> argv == CodexArgv(prompt, autoApprove)
    ensures chdir.None? && run.Completed? ==>
              r == Finished(run.returncode, run.stdout, run.stderr, timestamp)
    ensures chdir.None? && run.Raised? ==>
              r == if run.failure.TimeoutExpired? then TimedOut(TimeoutMessage) else Errored(run.failure.message)
    ensures r.Status() == "success" <==> chdir.None? && run.Completed? && run.returncode == 0
    ensures r == CodexOutcome(chdir, run, timestamp)
  {
    if chdir.Some? {
      return [], Errored(chdir.value);
    }
    argv := BuildArgv(prompt, autoApprove);
    match run
    case Completed(rc, out, err) =>
      r := Finished(rc, out, err, timestamp);
    case Raised(TimeoutExpired(_)) =>
      r := TimedOut(TimeoutMessage);
    case Raised(f) =>
      r := Errored(f.message);
  }

  // The prompts of the three wrappers (their wording is not modelled).
  const ApiRoutesPrompt := "<API routes prompt>"
  const DatabasePrompt := "<database connection prompt>"
  const GithubPrompt := "<GitHub integration prompt>"

  /** `generate_api_routes`. */
  method GenerateApiRoutes(chdir: Option<string>, run: Process, timestamp: string)
    returns (argv: seq<string>, r: CodexRun)
    ensures chdir.None? ==> argv == ["codex", "exec", "--full-auto", ApiRoutesPrompt]
    ensures chdir.Some? ==> argv == []
    ensures r == CodexOutcome(chdir, run, timestamp)
  {
    argv, r := RunCodexCommand(ApiRoutesPrompt, true, chdir, run, timestamp);
  }

  /** `implement_database_connection`. */
  method ImplementDatabaseConnection(chdir: Option<string>, run: Process, timestamp: string)
    returns (argv: seq<string>, r: CodexRun)
    ensures chdir.None? ==> argv == ["codex", "exec", "--full-auto", DatabasePrompt]
    ensures chdir.Some? ==> argv == []
    ensures r == CodexOutcome(chdir, run, timestamp)
  {
    argv, r := RunCodexCommand(DatabasePrompt, true, chdir, run, timestamp);
  }

  /** `setup_github_integration`. */
  method SetupGithubIntegration(chdir: Option<string>, run: Process, timestamp: string)
    returns (argv: seq<string>, r: CodexRun)
    ensures chdir.None? ==> argv == ["codex", "exec", "--full-auto", GithubPrompt]
    ensures chdir.Some? ==> argv == []
    ensures r == CodexOutcome(chdir, run, timestamp)
  {
    argv, r := RunCodexCommand(GithubPrompt, true, chdir, run, timestamp);
  }

  /** What the entry point prints after the auth status. */
  datatype MainBranch = ShowsCommands(commands: seq<string>) | AwaitsAuth(status: string)

  /** `__main__`: the command list is shown exactly when Codex reports itself authenticated. */
  function Main(version: Process): (b: MainBranch)
    ensures b.ShowsCommands? <==> version.Completed? && version.returncode == 0
    ensures b.AwaitsAuth? ==> b.status == CheckCodexAuth(version).Name() && b.status != "authenticated"
  {
    var auth := CheckCodexAuth(version);
    if auth.Name() == "authenticated" then
      ShowsCommands(["generate_api_routes()", "implement_database_connection()", "setup_github_integration()"])
    else AwaitsAuth(auth.Name())
  }
}

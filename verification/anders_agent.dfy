/**
  `AndersAgent` from scripts/anders_agent.py: the project probes (`git status`
  classification, Next.js and schema presence), the GitHub setup and API
  emission effect scripts, and the command-line entry point, which looks the
  argument up as an attribute of the agent.
 */
module AndersAgent {
  import opened Text
  import opened Host

  // The attributes `__init__` sets.
  const Name := "Anders"
  const Role := "Coding Agent"
  const ProjectRoot := "/home/ubuntu/simon-command-center"
  const Status := "🤖 Ready"

  /** The introduction text (its wording is not modelled). */
  const IntroText := "<introduction of Anders>"
  /** The agents route source that `implement_api` writes (its wording is not modelled). */
  const AgentsRouteTemplate := "<agents route template>"
  const AgentsRouteDir := "src/app/api/agents"
  const AgentsRoutePath := "src/app/api/agents/route.ts"
  const InitialCommitMessage := "🚀 Initial Command Center setup"

  /** The three values `check_git_status` reports. */
  datatype GitStatus = Clean | Changes | NoGit

  /**
    `check_git_status` given the outcome of `git status --porcelain`: the exit
    code is never read, only whether the call raised and whether its output is
    blank.
   */
  function CheckGitStatus(git: Process): (s: GitStatus)
    ensures s == NoGit <==> git.Raised?
    ensures s == Clean <==> git.Completed? && AllSpace(git.stdout)
    ensures s == Changes <==> git.Completed? && !AllSpace(git.stdout)
  {
    match git
    case Raised(_) => NoGit
    case Completed(_, out, _) =>
      StripEmptyIffAllSpace(out);
      if Strip(out) == "" then Clean else Changes
  }

  /**
    Outside a repository `git status` exits with an error and prints nothing
    on stdout, and that is reported as "clean", whatever the exit code.
   */
  lemma OutsideRepositoryReadsClean(returncode: int, stderr: string)
    ensures CheckGitStatus(Completed(returncode, "", stderr)) == Clean
  {
  }

  /** The classification depends on stdout alone, never on the exit code or stderr. */
  lemma ExitCodeIgnored(rc1: int, rc2: int, out: string, err1: string, err2: string)
    ensures CheckGitStatus(Completed(rc1, out, err1)) == CheckGitStatus(Completed(rc2, out, err2))
  {
  }

  datatype NextJsStatus = Ready | Missing

  /** `check_nextjs_status`: "ready" exactly when package.json exists. */
  function CheckNextjsStatus(t: FileTree): (s: NextJsStatus)
    ensures s == Ready <==> Exists(t, "package.json")
  {
    if Exists(t, "package.json") then Ready else Missing
  }

  /** The dictionary `get_status` returns. */
  datatype StatusReport = StatusReport(
    agent: string,
    projectRoot: string,
    gitStatus: GitStatus,
    nextJsStatus: NextJsStatus,
    databaseReady: bool,
    timestamp: string)

  /** `get_status`, with the tree, the `git status` outcome and the clock passed in. */
  function GetStatus(t: FileTree, git: Process, timestamp: string): (r: StatusReport)
    ensures r.agent == Name && r.projectRoot == ProjectRoot && r.timestamp == timestamp
    ensures r.databaseReady <==> Exists(t, "database/schema.sql")
    ensures r.nextJsStatus == Ready <==> Exists(t, "package.json")
    ensures r.gitStatus == NoGit <==> git.Raised?
    ensures r.gitStatus == CheckGitStatus(git) && r.nextJsStatus == CheckNextjsStatus(t)
  {
    StatusReport(Name, ProjectRoot, CheckGitStatus(git), CheckNextjsStatus(t),
                 Exists(t, "database/schema.sql"), timestamp)
  }

  /** `git init`, `git add .`, `git commit -m message`, in that order. */
  function InitCommands(message: string): seq<Effect> {
    [Git(["init"]), Git(["add", "."]), Git(["commit", "-m", message])]
  }

  /** What `setup_github` attempts: chdir, then the three git commands unless `.git` exists. */
  function SetupGithubPlan(t: FileTree): seq<Effect> {
    [ChangeDir(ProjectRoot)] + (if Exists(t, ".git") then [] else InitCommands(InitialCommitMessage))
  }

  /** The steps `setup_github` ran, and the boolean it returned. */
  datatype GithubSetup = GithubSetup(run: Run, returned: bool)

  /** A full run of the plan on a tree without `.git` creates the `.git` directory. */
  lemma SetupGithubCreatesGit(t: FileTree)
    requires !Exists(t, ".git")
    ensures IsDir(ApplyAll(t, SetupGithubPlan(t)), ".git")
  {
    var plan := SetupGithubPlan(t);
    ApplyAllDirs(t, plan);
    assert plan[1..][0] == Git(["init"]);
    assert ".git" in CreatedDirs(plan[1..]);
  }

  /**
    `setup_github`: returns True when no step raised and False as soon as one
    did; the git commands run in order, and only when `.git` is absent.
   */
  function SetupGithub(t: FileTree, raises: map<Effect, string>): (r: GithubSetup)
    ensures r.returned <==> forall i :: 0 <= i < |SetupGithubPlan(t)| ==> SetupGithubPlan(t)[i] !in raises
    ensures r.run == RunEffects(t, SetupGithubPlan(t), raises) && (r.returned <==> r.run.error.None?)
    ensures |r.run.attempted| <= |SetupGithubPlan(t)| && r.run.attempted == SetupGithubPlan(t)[..|r.run.attempted|]
    ensures Exists(t, ".git") ==> forall i :: 0 <= i < |r.run.attempted| ==> !r.run.attempted[i].Git?
    ensures r.returned && !Exists(t, ".git") ==>
              && r.run.attempted == [ChangeDir(ProjectRoot), Git(["init"]), Git(["add", "."]),
                                     Git(["commit", "-m", InitialCommitMessage])]
              && IsDir(r.run.tree, ".git")
  {
    var plan := SetupGithubPlan(t);
    var run := RunEffects(t, plan, raises);
    RunEffectsCompletes(t, plan, raises);
    if !Exists(t, ".git") then
      SetupGithubCreatesGit(t);
      GithubSetup(run, run.error.None?)
    else
      assert plan == [ChangeDir(ProjectRoot)];
      GithubSetup(run, run.error.None?)
  }

  /** The steps of `implement_api`, which runs outside any `try`. */
  const ImplementApiPlan := [MakeDirs(AgentsRouteDir), WriteFile(AgentsRoutePath, AgentsRouteTemplate)]

  /**
    `implement_api` rewrites the same constant text at the same path, so a
    second run leaves the tree exactly as the first left it.
   */
  lemma ImplementApiIdempotent(t: FileTree)
    ensures var once := ApplyAll(t, ImplementApiPlan);
            && AgentsRoutePath in once.files && once.files[AgentsRoutePath] == AgentsRouteTemplate
            && IsDir(once, "src") && IsDir(once, "src/app/api") && IsDir(once, AgentsRouteDir)
            && ApplyAll(once, ImplementApiPlan) == once
  {
    ApplyAllPair(t, ImplementApiPlan[0], ImplementApiPlan[1]);
    assert AgentsRouteDir[..3] == "src" && AgentsRouteDir[3] == '/';
    assert AgentsRouteDir[..11] == "src/app/api" && AgentsRouteDir[11] == '/';
    assert AgentsRouteDir[..|AgentsRouteDir|] == AgentsRouteDir;
    ReplayIdempotent(t, ImplementApiPlan);
  }

  /** The methods of the agent; `__init__` is reachable by name too. */
  datatype MethodName =
    | DunderInit | Introduce | SetupGithubMethod | ImplementApi
    | GetStatusMethod | CheckGitStatusMethod | CheckNextjsStatusMethod

  /** What `getattr(agent, name)` finds. */
  datatype Attribute = DataAttribute(field: string) | MethodAttribute(m: MethodName)

  /** The attributes an agent instance has (those inherited from `object` are not modelled). */
  function Lookup(name: string): Option<Attribute> {
    if name in {"name", "role", "project_root", "status"} then Some(DataAttribute(name))
    else if name == "__init__" then Some(MethodAttribute(DunderInit))
    else if name == "introduce" then Some(MethodAttribute(Introduce))
    else if name == "setup_github" then Some(MethodAttribute(SetupGithubMethod))
    else if name == "implement_api" then Some(MethodAttribute(ImplementApi))
    else if name == "get_status" then Some(MethodAttribute(GetStatusMethod))
    else if name == "check_git_status" then Some(MethodAttribute(CheckGitStatusMethod))
    else if name == "check_nextjs_status" then Some(MethodAttribute(CheckNextjsStatusMethod))
    else None
  }

  /**
    One run of the script: the method invoked (its result is dropped), what
    the entry point itself printed, and whether it ended in an uncaught
    `TypeError` (calling a string).
   */
  datatype MainRun = MainRun(invoked: Option<MethodName>, printed: seq<string>, crashed: bool)

  /** `__main__` with `sys.argv[1]` as `arg`. */
  function Main(arg: Option<string>): (r: MainRun)
    ensures arg.None? ==> r == MainRun(None, [IntroText], false)
    ensures arg.Some? ==>
              (r.invoked.Some? <==> Lookup(arg.value).Some? && Lookup(arg.value).value.MethodAttribute?)
    ensures arg.Some? && r.invoked.Some? ==> r.invoked.value == Lookup(arg.value).value.m
    ensures arg.Some? && Lookup(arg.value).None? ==>
              r == MainRun(None, ["❌ Unknown command: " + arg.value], false)
    ensures arg.Some? && Lookup(arg.value).Some? ==> r.printed == []
    ensures r.crashed <==> arg.Some? && Lookup(arg.value).Some? && Lookup(arg.value).value.DataAttribute?
  {
    match arg
    case None => MainRun(None, [IntroText], false)
    case Some(command) =>
      match Lookup(command)
      case None => MainRun(None, ["❌ Unknown command: " + command], false)
      case Some(DataAttribute(_)) => MainRun(None, [], true)
      case Some(MethodAttribute(m)) => MainRun(Some(m), [], false)
  }

  /** Every method of the agent is reachable from the command line by its own name. */
  lemma EveryMethodReachable(m: MethodName)
    ensures exists name :: Main(Some(name)).invoked == Some(m)
  {
    var name := match m
      case DunderInit => "__init__"
      case Introduce => "introduce"
      case SetupGithubMethod => "setup_github"
      case ImplementApi => "implement_api"
      case GetStatusMethod => "get_status"
      case CheckGitStatusMethod => "check_git_status"
      case CheckNextjsStatusMethod => "check_nextjs_status";
    assert Main(Some(name)).invoked == Some(m);
  }

  /**
    Three of the five commands the introduction advertises are not attributes
    of the agent, so naming them only prints "Unknown command".
   */
  lemma AdvertisedButMissing(command: string)
    requires command in {"setup_database", "deploy_test", "integrate_openai"}
    ensures Main(Some(command)) == MainRun(None, ["❌ Unknown command: " + command], false)
  {
  }
}

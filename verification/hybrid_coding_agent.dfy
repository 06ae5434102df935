/**
  `HybridAndersAgent` from scripts/hybrid_coding_agent.py: the project-state
  probe and status report, the three handlers (API route emission, database
  helper emission, git initialisation) as effect scripts, and the fixed
  four-command dispatcher of its entry point.
 */
module HybridCodingAgent {
  import opened Host
  import AndersAgent

  const Name := "Anders"
  const Version := "2.0-Hybrid"
  const ProjectRoot := "/home/ubuntu/simon-command-center"
  const CodexCliLocal := "Available on Simon's machine"

  // The template texts are constants whose wording is not modelled.
  const AgentsRouteTemplate := "<agents route template>"
  const TasksRouteTemplate := "<tasks route template>"
  const DatabaseTemplate := "<database helper template>"
  const GitignoreTemplate := "<gitignore template>"
  const InitialCommitMessage := "🚀 Initial Command Center setup with Anders"

  /** `check_file_exists`: true for a file or a directory at `rel`. */
  function CheckFileExists(t: FileTree, rel: string): (b: bool)
    ensures b <==> rel in t.files || rel in t.dirs
  {
    Exists(t, rel)
  }

  /** `check_directory_exists`: true only for a directory at `rel`. */
  function CheckDirectoryExists(t: FileTree, rel: string): (b: bool)
    ensures b <==> rel in t.dirs
  {
    IsDir(t, rel)
  }

  /** The six checks `analyze_project_state` reports. */
  datatype ProjectState = ProjectState(
    nextJs: bool,
    databaseSchema: bool,
    apiRoutes: bool,
    githubActions: bool,
    environmentConfig: bool,
    gitInitialized: bool)

  /** `analyze_project_state`. */
  function AnalyzeProjectState(t: FileTree): (s: ProjectState)
    ensures s.nextJs <==> Exists(t, "package.json")
    ensures s.databaseSchema <==> Exists(t, "database/schema.sql")
    ensures s.apiRoutes <==> IsDir(t, "src/app/api")
    ensures s.githubActions <==> Exists(t, ".github/workflows/deploy.yml")
    ensures s.environmentConfig <==> Exists(t, ".env.example")
    ensures s.gitInitialized <==> IsDir(t, ".git")
  {
    ProjectState(
      CheckFileExists(t, "package.json"),
      CheckFileExists(t, "database/schema.sql"),
      CheckDirectoryExists(t, "src/app/api"),
      CheckFileExists(t, ".github/workflows/deploy.yml"),
      CheckFileExists(t, ".env.example"),
      CheckDirectoryExists(t, ".git"))
  }

  /**
    Four checks accept a file or a directory; `api_routes` and
    `git_initialized` accept a directory only, so a regular file at
    `src/app/api` or `.git` reads as absent.
   */
  lemma DirectoryChecksRejectFiles(t: FileTree)
    ensures var s := AnalyzeProjectState(t);
            && (s.apiRoutes <==> "src/app/api" in t.dirs)
            && (s.gitInitialized <==> ".git" in t.dirs)
            && ("src/app/api" in t.files && "src/app/api" !in t.dirs ==> !s.apiRoutes)
            && (".git" in t.files && ".git" !in t.dirs ==> !s.gitInitialized)
            && (s.nextJs <==> "package.json" in t.files || "package.json" in t.dirs)
  {
  }

  /** A tree holding only the package manifest reads as Next.js present and nothing else. */
  lemma OnlyManifest(content: string)
    ensures AnalyzeProjectState(FileTree(map["package.json" := content], {}))
            == ProjectState(true, false, false, false, false, false)
  {
  }

  /** The capability flags of the status report. */
  datatype Capabilities = Capabilities(
    localDevelopment: bool,
    openaiApi: bool,
    codexCliLocal: string,
    gitIntegration: bool,
    databaseOperations: bool,
    deploymentAutomation: bool)

  /** The dictionary `status_report` returns. */
  datatype StatusReport = StatusReport(
    agent: string,
    version: string,
    timestamp: string,
    projectRoot: string,
    capabilities: Capabilities,
    currentSetup: ProjectState)

  /** `status_report`, with the environment read at construction and the clock passed in. */
  function MakeStatusReport(t: FileTree, env: Env, timestamp: string): (r: StatusReport)
    ensures r.capabilities.openaiApi <==> "OPENAI_API_KEY" in env && env["OPENAI_API_KEY"] != ""
    ensures r.capabilities.localDevelopment && r.capabilities.gitIntegration
    ensures r.capabilities.databaseOperations && r.capabilities.deploymentAutomation
    ensures r.currentSetup == AnalyzeProjectState(t)
    ensures r.agent == Name && r.version == Version && r.projectRoot == ProjectRoot
  {
    var caps := Capabilities(true, Truthy(GetEnv(env, "OPENAI_API_KEY")), CodexCliLocal, true, true, true);
    StatusReport(Name, Version, timestamp, ProjectRoot, caps, AnalyzeProjectState(t))
  }

  /**
    The two scripts probe the same files the same way: Anders's Next.js
    status is "ready" and its database flag is set exactly when this agent's
    `next_js` and `database_schema` checks hold.
   */
  lemma ProbesAgree(t: FileTree, git: Process, timestamp: string)
    ensures (AndersAgent.GetStatus(t, git, timestamp).nextJsStatus == AndersAgent.Ready)
            == AnalyzeProjectState(t).nextJs
    ensures AndersAgent.GetStatus(t, git, timestamp).databaseReady == AnalyzeProjectState(t).databaseSchema
  {
  }

  /** The result dictionary of a handler. */
  datatype Report =
    | Success(message: string, routes: seq<string>)
    | Failed(error: string)

  /**
    A handler run: the steps attempted, and its report, or `None` when an
    exception escaped the handler (only `initialize_git_repo` catches).
   */
  datatype HandlerRun = HandlerRun(run: Run, report: Option<Report>)

  const CreateApiPlan := [
    MakeDirs("src/app/api/agents"),
    WriteFile("src/app/api/agents/route.ts", AgentsRouteTemplate),
    MakeDirs("src/app/api/tasks"),
    WriteFile("src/app/api/tasks/route.ts", TasksRouteTemplate)
  ]

  /** `create_api_routes`. */
  function CreateApiRoutes(t: FileTree, raises: map<Effect, string>): (r: HandlerRun)
    ensures r.report.Some? <==> forall i :: 0 <= i < |CreateApiPlan| ==> CreateApiPlan[i] !in raises
    ensures r.report.Some? ==> r.report.value == Success("API routes created successfully", ["agents", "tasks"])
    ensures r.report.Some? ==> r.run.tree == ApplyAll(t, CreateApiPlan)
  {
    var run := RunEffects(t, CreateApiPlan, raises);
    RunEffectsCompletes(t, CreateApiPlan, raises);
    HandlerRun(run, if run.error.None? then Some(Success("API routes created successfully", ["agents", "tasks"])) else None)
  }

  /** The files `create_api_routes` writes, each with its template. */
  lemma CreateApiWrites()
    ensures Writes(CreateApiPlan) == map["src/app/api/agents/route.ts" := AgentsRouteTemplate,
                                         "src/app/api/tasks/route.ts" := TasksRouteTemplate]
  {
    var p := CreateApiPlan;
    assert p[3..][1..] == [];
    assert Writes(p[3..]) == map["src/app/api/tasks/route.ts" := TasksRouteTemplate];
    assert p[2..][1..] == p[3..];
    assert Writes(p[2..]) == Writes(p[3..]);
    assert p[1..][1..] == p[2..];
    assert Writes(p[1..]) == map["src/app/api/agents/route.ts" := AgentsRouteTemplate] + Writes(p[2..]);
  }

  /**
    The route files hold the constant templates, and running the handler again
    on its own result changes nothing.
   */
  lemma CreateApiRoutesIdempotent(t: FileTree)
    ensures var once := ApplyAll(t, CreateApiPlan);
            && "src/app/api/agents/route.ts" in once.files
            && once.files["src/app/api/agents/route.ts"] == AgentsRouteTemplate
            && "src/app/api/tasks/route.ts" in once.files
            && once.files["src/app/api/tasks/route.ts"] == TasksRouteTemplate
            && ApplyAll(once, CreateApiPlan) == once
  {
    ApplyAllFiles(t, CreateApiPlan);
    CreateApiWrites();
    ReplayIdempotent(t, CreateApiPlan);
  }

  const SetupDatabasePlan := [MakeDirs("src/lib"), WriteFile("src/lib/database.ts", DatabaseTemplate)]

  /** `setup_database_connection`. */
  function SetupDatabaseConnection(t: FileTree, raises: map<Effect, string>): (r: HandlerRun)
    ensures r.report.Some? <==> forall i :: 0 <= i < |SetupDatabasePlan| ==> SetupDatabasePlan[i] !in raises
    ensures r.report.Some? ==> r.report.value == Success("Database connection utility created", [])
    ensures r.report.Some? ==> r.run.tree == ApplyAll(t, SetupDatabasePlan)
  {
    var run := RunEffects(t, SetupDatabasePlan, raises);
    RunEffectsCompletes(t, SetupDatabasePlan, raises);
    HandlerRun(run, if run.error.None? then Some(Success("Database connection utility created", [])) else None)
  }

  const GitignoreStep := WriteFile(".gitignore", GitignoreTemplate)

  /** The git commands `initialize_git_repo` runs when `.git` is absent. */
  function GitInitPlan(t: FileTree): seq<Effect> {
    if Exists(t, ".git") then [] else
      [Git(["init"]), Git(["add", "."]), Git(["commit", "-m", InitialCommitMessage])]
  }

  /** The first phase of `initialize_git_repo`: chdir, then the .gitignore rewrite. */
  const WritePlan := [ChangeDir(ProjectRoot), GitignoreStep]

  /** What the first phase leaves: the .gitignore template in place, or the text of the step that raised. */
  lemma WritePhase(t: FileTree, raises: map<Effect, string>)
    ensures var first := RunEffects(t, WritePlan, raises);
            && (forall i :: 0 <= i < |first.attempted| ==> !first.attempted[i].Git?)
            && (first.error.None? <==> ChangeDir(ProjectRoot) !in raises && GitignoreStep !in raises)
            && (first.error.None? ==> first.tree == t.(files := t.files[".gitignore" := GitignoreTemplate]))
            && (first.error.Some? ==>
                  first.attempted != [] && first.attempted[|first.attempted| - 1] in raises
                  && first.error.value == raises[first.attempted[|first.attempted| - 1]])
  {
    RunEffectsSpec(t, WritePlan, raises);
    ApplyAllPair(t, ChangeDir(ProjectRoot), GitignoreStep);
    assert forall i :: 0 <= i < |WritePlan| ==> !WritePlan[i].Git?;
  }

  /** The git commands change no file. */
  lemma GitPhaseKeepsFiles(t: FileTree, raises: map<Effect, string>)
    ensures RunEffects(t, GitInitPlan(t), raises).tree.files == t.files
  {
    var plan := GitInitPlan(t);
    var second := RunEffects(t, plan, raises);
    RunEffectsSpec(t, plan, raises);
    var done := if second.error.None? then plan else second.attempted[..|second.attempted| - 1];
    assert forall i :: 0 <= i < |done| ==> done[i] == plan[i];
    ApplyAllFiles(t, done);
    WritesOfGitOnly(done);
  }

  /** When no git command raises, `.git` exists afterwards. */
  lemma GitPhaseCreatesGit(t: FileTree, raises: map<Effect, string>)
    ensures var second := RunEffects(t, GitInitPlan(t), raises);
            second.error.None? ==> Exists(second.tree, ".git")
  {
    var plan := GitInitPlan(t);
    RunEffectsCompletes(t, plan, raises);
    if plan != [] {
      ApplyAllDirs(t, plan);
      assert ".git" in CreatedDirs(plan);
    }
  }

  /**
    What the second phase leaves: the files as they were, `.git` present when
    no command raised, and otherwise the text of the command that raised.
   */
  lemma GitPhase(t: FileTree, raises: map<Effect, string>)
    ensures var second := RunEffects(t, GitInitPlan(t), raises);
            && second.tree.files == t.files
            && (Exists(t, ".git") ==> second.attempted == [])
            && (second.error.None? ==> Exists(second.tree, ".git"))
            && (second.error.Some? ==>
                  second.attempted != [] && second.attempted[|second.attempted| - 1] in raises
                  && second.error.value == raises[second.attempted[|second.attempted| - 1]])
  {
    GitPhaseKeepsFiles(t, raises);
    GitPhaseCreatesGit(t, raises);
    RunEffectsStops(t, GitInitPlan(t), raises);
  }

  /** A failing first phase attempted a prefix of the whole plan, and some step of that plan raised. */
  lemma FirstPhaseOrder(t: FileTree, raises: map<Effect, string>)
    ensures var first := RunEffects(t, WritePlan, raises);
            first.error.Some? ==>
              && first.attempted == (WritePlan + GitInitPlan(t))[..|first.attempted|]
              && !NoneRaises(WritePlan + GitInitPlan(t), raises)
  {
    var first := RunEffects(t, WritePlan, raises);
    WritePhase(t, raises);
    if first.error.Some? {
      var plan := WritePlan + GitInitPlan(t);
      assert plan[0] == WritePlan[0] && plan[1] == WritePlan[1];
    }
  }

  /**
    After a successful first phase, the git phase runs the plan of the original
    tree; the steps of both phases together are a prefix of the whole plan,
    and the git phase succeeds exactly when no step of the whole plan raises.
   */
  lemma SecondPhaseOrder(t: FileTree, raises: map<Effect, string>)
    ensures var first := RunEffects(t, WritePlan, raises);
            var second := RunEffects(first.tree, GitInitPlan(first.tree), raises);
            first.error.None? ==>
              && GitInitPlan(first.tree) == GitInitPlan(t)
              && first.attempted + second.attempted == (WritePlan + GitInitPlan(t))[..|first.attempted + second.attempted|]
              && (second.error.None? <==> NoneRaises(WritePlan + GitInitPlan(t), raises))
  {
    var first := RunEffects(t, WritePlan, raises);
    WritePhase(t, raises);
    RunEffectsCompletes(t, WritePlan, raises);
    if first.error.None? {
      var g := GitInitPlan(t);
      assert Exists(first.tree, ".git") <==> Exists(t, ".git");
      var second := RunEffects(first.tree, g, raises);
      RunEffectsCompletes(first.tree, g, raises);
      var plan := WritePlan + g;
      assert first.attempted + second.attempted == plan[..|first.attempted + second.attempted|];
      assert NoneRaises(plan, raises) <==> NoneRaises(g, raises) by {
        assert forall i :: 0 <= i < |g| ==> g[i] == plan[i + 2];
      }
    }
  }

  /**
    After a successful first phase, the tree the git phase leaves is the
    whole plan applied on success, and otherwise the steps before the
    raising one applied.
   */
  lemma SecondPhaseTree(t: FileTree, raises: map<Effect, string>)
    ensures var first := RunEffects(t, WritePlan, raises);
            var second := RunEffects(first.tree, GitInitPlan(first.tree), raises);
            var attempted := first.attempted + second.attempted;
            first.error.None? ==>
              && (second.error.None? ==> second.tree == ApplyAll(t, WritePlan + GitInitPlan(t)))
              && (second.error.Some? ==> second.tree == ApplyAll(t, attempted[..|attempted| - 1]))
  {
    var first := RunEffects(t, WritePlan, raises);
    RunEffectsCompletes(t, WritePlan, raises);
    WritePhase(t, raises);
    if first.error.None? {
      var g := GitInitPlan(first.tree);
      assert Exists(first.tree, ".git") <==> Exists(t, ".git");
      assert g == GitInitPlan(t);
      var second := RunEffects(first.tree, g, raises);
      RunEffectsSpec(first.tree, g, raises);
      if second.error.None? {
        ApplyAllAppend(t, WritePlan, g);
      } else {
        var done := second.attempted[..|second.attempted| - 1];
        var attempted := first.attempted + second.attempted;
        assert attempted[..|attempted| - 1] == WritePlan + done;
        ApplyAllAppend(t, WritePlan, done);
      }
    }
  }

  /**
    `initialize_git_repo`: chdir, rewrite .gitignore, then init/add/commit
    when `.git` is absent (tested after the rewrite); any exception becomes a
    failure report carrying its text.
   */
  function InitializeGitRepo(t: FileTree, raises: map<Effect, string>): (r: HandlerRun)
    ensures r.report.Some?
    ensures |r.run.attempted| <= |WritePlan + GitInitPlan(t)|
    ensures r.run.attempted == (WritePlan + GitInitPlan(t))[..|r.run.attempted|]
    ensures r.report.value.Success? <==> NoneRaises(WritePlan + GitInitPlan(t), raises)
    ensures r.report.value.Success? ==> r.run.tree.files == t.files[".gitignore" := GitignoreTemplate]
    ensures ChangeDir(ProjectRoot) !in raises && GitignoreStep !in raises ==>
              ".gitignore" in r.run.tree.files && r.run.tree.files[".gitignore"] == GitignoreTemplate
    ensures Exists(t, ".git") ==> forall i :: 0 <= i < |r.run.attempted| ==> !r.run.attempted[i].Git?
    ensures r.report.value.Success? <==> r.run.error.None?
    ensures r.report.value.Success? ==> Exists(r.run.tree, ".git")
    ensures r.report.value.Success? ==>
              r.report.value == Success("Git repository initialized", [])
              && r.run.tree == ApplyAll(t, WritePlan + GitInitPlan(t))
    ensures r.report.value.Failed? ==>
              && r.run.attempted != []
              && r.run.attempted[|r.run.attempted| - 1] in raises
              && r.report.value.error == raises[r.run.attempted[|r.run.attempted| - 1]]
              && (forall i :: 0 <= i < |r.run.attempted| - 1 ==> r.run.attempted[i] !in raises)
              && r.run.tree == ApplyAll(t, r.run.attempted[..|r.run.attempted| - 1])
  {
    var first := RunEffects(t, WritePlan, raises);
    WritePhase(t, raises);
    if first.error.Some? then
      FirstPhaseOrder(t, raises);
      RunEffectsStops(t, WritePlan, raises);
      HandlerRun(first, Some(Failed(first.error.value)))
    else
      var afterWrite := first.tree;
      var second := RunEffects(afterWrite, GitInitPlan(afterWrite), raises);
      GitPhase(afterWrite, raises);
      SecondPhaseOrder(t, raises);
      RunEffectsCompletes(t, WritePlan, raises);
      RunEffectsStops(afterWrite, GitInitPlan(afterWrite), raises);
      SecondPhaseTree(t, raises);
      var run := Run(first.attempted + second.attempted, second.tree, second.error);
      assert Exists(t, ".git") ==> run.attempted == first.attempted;
      assert second.error.Some? ==> run.attempted[|run.attempted| - 1] == second.attempted[|second.attempted| - 1];
      HandlerRun(run, Some(if second.error.None? then Success("Git repository initialized", []) else Failed(second.error.value)))
  }

  /** The commands the entry point recognises. */
  datatype Command = StatusCommand | CreateApiCommand | SetupDbCommand | InitGitCommand

  function CommandName(c: Command): string {
    match c
    case StatusCommand => "status"
    case CreateApiCommand => "create_api"
    case SetupDbCommand => "setup_db"
    case InitGitCommand => "init_git"
  }

  /** The if/elif chain of `__main__`. */
  function ParseCommand(arg: string): (c: Option<Command>)
    ensures c.Some? ==> CommandName(c.value) == arg
  {
    if arg == "status" then Some(StatusCommand)
    else if arg == "create_api" then Some(CreateApiCommand)
    else if arg == "setup_db" then Some(SetupDbCommand)
    else if arg == "init_git" then Some(InitGitCommand)
    else None
  }

  /** Every command is recognised by its own name, and by no other. */
  lemma CommandNamesRoundTrip(c: Command, arg: string)
    ensures ParseCommand(CommandName(c)) == Some(c)
    ensures ParseCommand(arg) == Some(c) <==> arg == CommandName(c)
  {
  }

  const CommandList := ["status", "create_api", "setup_db", "init_git"]

  /** What `__main__` does: print usage, print an unknown-command notice, or run one handler. */
  datatype Dispatch = Usage(lines: seq<string>) | Unknown(lines: seq<string>) | Invoke(command: Command)

  const UsageLines := [
    "🤖 Anders Hybrid Coding Agent v2.0",
    "Usage: python3 hybrid_coding_agent.py [command]",
    "Commands: status, create_api, setup_db, init_git"]

  function Main(arg: Option<string>): (d: Dispatch)
    ensures arg.None? <==> d.Usage?
    ensures d.Usage? ==> d.lines == UsageLines
    ensures arg.Some? && arg.value !in CommandList ==> d.Unknown?
    ensures arg.Some? ==> (d.Invoke? <==> arg.value in CommandList)
    ensures d.Invoke? ==> arg == Some(CommandName(d.command))
    ensures d.Unknown? ==> d.lines == ["❌ Unknown command: " + arg.value, "Available: status, create_api, setup_db, init_git"]
  {
    match arg
    case None =>
      Usage(UsageLines)
    case Some(command) =>
      match ParseCommand(command)
      case Some(c) => Invoke(c)
      case None =>
        Unknown(["❌ Unknown command: " + command, "Available: status, create_api, setup_db, init_git"])
  }
}

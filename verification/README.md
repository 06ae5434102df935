# Command Center agents and dashboard, modelled in Dafny

This project models the decision and construction logic of the Simon Command
Center repository: the Python agent scripts that probe a Next.js project,
classify `git` and `codex` subprocess outcomes, run ordered scaffolding effects
and dispatch command-line arguments; the MySQL helper that builds INSERT
statements and manages connections; and the two React dashboard components
that map task and agent fields to badges and keep their list and form state.

The outside world is passed in as data (module `Host`):
- The project tree is a `FileTree`: a map from relative paths to file
  contents, plus a set of directories.
- A subprocess call is a `Process` outcome: completed with an exit code and
  its output, or raised with a failure.
- The environment is a map.
- A handler's writes, directory creations, `chdir`s and git commands form a
  plan of `Effect`s. `RunEffects` runs a plan the way one Python `try` block
  does. A map says which steps raise and with what text; the first raising
  step ends the run.

Timestamps, HTTP answers and driver answers are parameters. Module `Text`
holds the string operations the sources rely on:
- Python's `strip` and substring test;
- `join`;
- JavaScript's first-occurrence `replace`;
- decimal rendering.

Files:
- `text.dfy`, `host.dfy`: the shared modules described above.
- `openai_integration.dfy`, `anders_agent.dfy`, `hybrid_coding_agent.dfy`,
  `codex_integration.dfy`: one module per script.
- `database.dfy`: `src/lib/database.ts`.
- `tasks_manager.dfy`, `agents_manager.dfy`: the two dashboard components.
  Each is a class whose fields are the component's state.

## Model

| member | source | states |
|---|---|---|
| OpenAIIntegration.FoundIsExistingSubsequence | scripts/openai_integration.py:98-111 | the files found are exactly the key files that exist, kept in list order; there are no more of them than candidates, and no duplicates when the candidates have none |
| OpenAIIntegration.KeyFilesDistinct | scripts/openai_integration.py:98-106 | the key file list has seven distinct entries |
| OpenAIIntegration.NoKeyFileMentionsApi | scripts/openai_integration.py:98-106 | no key file name contains the substring "api" |
| OpenAIIntegration.KeyFileFacts | scripts/openai_integration.py:98-119 | package.json is among the files found exactly when it exists, and no file found contains "api" |
| OpenAIIntegration.ReadyForDeploymentUnreachable | scripts/openai_integration.py:113-119 | the recommended step is "Implement API routes" when package.json exists and "Initialize Next.js project" otherwise; "Ready for deployment" is never recommended |
| OpenAIIntegration.AnalyzeProject | scripts/openai_integration.py:88-121 | the path is echoed; files_found holds exactly the existing key files, in order, without duplicates, at most 7; next_steps holds exactly one step, chosen by package.json alone |
| OpenAIIntegration.CodeGeneration | scripts/openai_integration.py:41-77 | without a non-empty key, no request is sent and the fixed "not configured" text is returned; otherwise the request goes to the chat completions URL with the bearer key, the prompt as the user message and the context inside the system message |
| OpenAIIntegration.ReplyByStatus | scripts/openai_integration.py:79-83 | a 200 answer yields the first choice's content; any other status yields a reply starting "❌ API Error: " from which that status code is read back |
| OpenAIIntegration.ErrorReplyNamesNoStatus | scripts/openai_integration.py:83-86 | an "❌ Error: " reply is never read as an API error reply carrying a status |
| OpenAIIntegration.RaisedReplyNamesNoStatus | scripts/openai_integration.py:73-86 | with a key set, a raising post, an unreadable 200 body and an empty choices list each reply "❌ Error: " followed by the exception text, and none of these replies names a status |
| AndersAgent.CheckGitStatus | scripts/anders_agent.py:137-148 | "no_git" exactly when the subprocess call raises; "clean" exactly when it completes with all-whitespace stdout; "changes" otherwise |
| AndersAgent.OutsideRepositoryReadsClean | scripts/anders_agent.py:140-146 | a completed call with empty stdout is "clean" whatever its exit code, as outside a repository |
| AndersAgent.ExitCodeIgnored | scripts/anders_agent.py:140-146 | the classification does not depend on the exit code or stderr |
| AndersAgent.CheckNextjsStatus | scripts/anders_agent.py:150-155 | "ready" exactly when package.json exists |
| AndersAgent.GetStatus | scripts/anders_agent.py:125-135 | agent and project root are the constants of `__init__`; database_ready holds exactly when database/schema.sql exists; next_js_status is the package.json probe and git_status the classification of the `git status` call |
| AndersAgent.SetupGithub | scripts/anders_agent.py:54-74 | returns True exactly when no planned step raises; the attempted steps are a prefix of chdir, git init, add, commit; no git command runs when .git exists; a full run without .git leaves a .git directory; the run is exactly the plan run with its raises, so after a failed commit the .git left by init stays in place |
| AndersAgent.SetupGithubCreatesGit | scripts/anders_agent.py:60-63 | on a tree without .git, running chdir, init, add and commit leaves a .git directory |
| AndersAgent.ImplementApiIdempotent | scripts/anders_agent.py:115-123 | the route file holds the template; its directories exist; a second run leaves the tree unchanged |
| AndersAgent.Main | scripts/anders_agent.py:157-167 | no argument prints only the introduction; a method attribute is invoked and its result dropped; an unknown name prints "Unknown command" and invokes nothing; a data attribute ends in a crash |
| AndersAgent.EveryMethodReachable | scripts/anders_agent.py:160-163 | every method of the agent is invoked by its own name |
| AndersAgent.AdvertisedButMissing | scripts/anders_agent.py:43-48 | setup_database, deploy_test and integrate_openai are advertised but only print "Unknown command" |
| HybridCodingAgent.CheckFileExists | scripts/hybrid_coding_agent.py:52-54 | true for a file or a directory at the path |
| HybridCodingAgent.CheckDirectoryExists | scripts/hybrid_coding_agent.py:56-58 | true only for a directory at the path |
| HybridCodingAgent.AnalyzeProjectState | scripts/hybrid_coding_agent.py:40-50 | next_js, database_schema, github_actions and environment_config hold exactly when their path exists as a file or directory; api_routes and git_initialized exactly when their path is a directory |
| HybridCodingAgent.DirectoryChecksRejectFiles | scripts/hybrid_coding_agent.py:40-50 | api_routes and git_initialized need a directory, so a regular file there reads as absent; next_js accepts either a file or a directory |
| HybridCodingAgent.OnlyManifest | scripts/hybrid_coding_agent.py:40-50 | a tree holding only package.json gives exactly one true flag out of six |
| HybridCodingAgent.MakeStatusReport | scripts/hybrid_coding_agent.py:19-38 | openai_api holds exactly when OPENAI_API_KEY is set and non-empty; the other boolean capabilities are true; current_setup is the project-state analysis |
| HybridCodingAgent.ProbesAgree | scripts/hybrid_coding_agent.py:43-44 | this agent's next_js and database_schema flags agree with the other agent's Next.js status and database_ready |
| HybridCodingAgent.CreateApiRoutes | scripts/hybrid_coding_agent.py:60-202 | it reports success with routes agents and tasks exactly when no step raises, and the tree is then the plan applied |
| HybridCodingAgent.CreateApiRoutesIdempotent | scripts/hybrid_coding_agent.py:129-196 | both route files hold their templates, and a second run leaves the tree unchanged |
| HybridCodingAgent.CreateApiWrites | scripts/hybrid_coding_agent.py:129-196 | the handler writes exactly the two route files, each with its template |
| HybridCodingAgent.SetupDatabaseConnection | scripts/hybrid_coding_agent.py:204-271 | it reports success exactly when no step raises, and the tree is then the plan applied |
| HybridCodingAgent.WritePhase | scripts/hybrid_coding_agent.py:276-314 | the chdir and .gitignore rewrite succeed exactly when neither raises, and then .gitignore holds the template; otherwise the error is the raising step's text |
| HybridCodingAgent.GitPhaseKeepsFiles | scripts/hybrid_coding_agent.py:317-320 | the git commands change no file |
| HybridCodingAgent.GitPhaseCreatesGit | scripts/hybrid_coding_agent.py:317-320 | when no git command raises, .git exists afterwards |
| HybridCodingAgent.GitPhase | scripts/hybrid_coding_agent.py:316-325 | no command runs when .git exists; files are unchanged; success leaves .git; a failure carries the raising command's text |
| HybridCodingAgent.InitializeGitRepo | scripts/hybrid_coding_agent.py:273-325 | it always reports; the steps attempted are a prefix of chdir, the .gitignore write, then init, add, commit when .git is absent; it reports success exactly when no step of that plan raises, and then the report is "Git repository initialized", the tree is the whole plan applied (so .git exists, no directory is lost and no file other than .gitignore changed); .gitignore holds the template unless the chdir or the write raises; a failure carries the text of the first step that raised, no earlier step raised, and the tree is the earlier steps applied (so a failed commit leaves the .git created by init) |
| HybridCodingAgent.ParseCommand | scripts/hybrid_coding_agent.py:333-352 | a recognised argument is the name of the command it selects |
| HybridCodingAgent.CommandNamesRoundTrip | scripts/hybrid_coding_agent.py:333-352 | each command is selected by its own name and by no other argument |
| HybridCodingAgent.Main | scripts/hybrid_coding_agent.py:327-359 | no argument, and only no argument, gives the three usage lines; a handler is invoked exactly for status, create_api, setup_db and init_git; any other argument gives the unknown-command notice and the command list |
| CodexIntegration.CheckCodexAuth | scripts/codex_integration.py:16-32 | authenticated with stripped stdout exactly on exit code 0; needs_auth with stderr on any other code; not_installed when the executable is missing; error with the exception text otherwise |
| CodexIntegration.VersionTimeoutIsError | scripts/codex_integration.py:18-32 | the 10-second timeout of the version check is reported as a generic error |
| CodexIntegration.CodexArgv | scripts/codex_integration.py:40-43 | the argv starts with codex exec, holds --full-auto exactly when auto-approving, ends with the prompt, and has length 3 or 4 |
| CodexIntegration.BuildArgv | scripts/codex_integration.py:40-43 | the appends build exactly that argv |
| CodexIntegration.CodexOutcome | scripts/codex_integration.py:34-67 | a failed chdir gives an error with its text; a completed run echoes code, output and timestamp; a timeout gives the fixed timeout message; status is "success" exactly for a completed run with code 0 and "timeout" exactly for a timed-out run |
| CodexIntegration.RunCodexCommand | scripts/codex_integration.py:34-67 | a failed chdir gives an error with its text; a completed run echoes code, output and timestamp; status is "success" exactly when the run completes with code 0; a timeout gives the fixed timeout message; the result is the one `CodexOutcome` describes |
| CodexIntegration.GenerateApiRoutes | scripts/codex_integration.py:69-81 | runs its prompt with --full-auto (nothing runs when the chdir raises) and returns the dictionary of `run_codex_command`, as `CodexOutcome` describes it |
| CodexIntegration.ImplementDatabaseConnection | scripts/codex_integration.py:83-94 | runs its prompt with --full-auto (nothing runs when the chdir raises) and returns the dictionary of `run_codex_command`, as `CodexOutcome` describes it |
| CodexIntegration.SetupGithubIntegration | scripts/codex_integration.py:96-108 | runs its prompt with --full-auto (nothing runs when the chdir raises) and returns the dictionary of `run_codex_command`, as `CodexOutcome` describes it |
| CodexIntegration.Main | scripts/codex_integration.py:110-126 | the command list is shown exactly when the version check exits with 0; otherwise the status shown is the non-authenticated one |
| Database.ConfigFrom | src/lib/database.ts:13-20 | each setting is its environment variable when set and non-empty, else localhost, root, empty, command_center; host, user and database are never empty |
| Database.DatabaseManager.constructor | src/lib/database.ts:13-20 | the manager holds the settings computed from the environment |
| Database.PlaceholderCount | src/lib/database.ts:43 | the placeholder list holds one "?" per key |
| Database.MarkCount | src/lib/database.ts:42-46 | a statement assembled from fixed text, the table, the column list and the placeholder list holds one "?" per key when the other parts hold none |
| Database.QueryMarksMatchValues | src/lib/database.ts:42-46 | when neither the table nor any key contains "?", the INSERT statement holds exactly as many "?" as there are values passed with it |
| Database.ColumnsMatchPlaceholders | src/lib/database.ts:42-43 | when no key holds a comma, the column and placeholder lists have the same number of items |
| Database.QueryIgnoresValues | src/lib/database.ts:44-50 | records with the same keys send the same statement text, so values never enter the query |
| Database.DatabaseManager.GetConnection | src/lib/database.ts:22-29 | a refused connection always surfaces as "Failed to connect to database"; otherwise a fresh, open connection with the manager's settings |
| Database.DatabaseManager.ExecuteQuery | src/lib/database.ts:31-39 | the query runs once over a fresh connection, which is ended whether execute succeeds or throws; the result is the driver's answer, unless `end` rejects, whose error then replaces it |
| Database.DatabaseManager.InsertRecord | src/lib/database.ts:41-55 | the statement built from the keys runs once with the values in key order; the connection is ended on both paths; the result is the insert id, or the driver's error, unless `end` rejects, whose error then replaces both |
| TasksManager.PriorityText | src/components/dashboard/TasksManager.tsx:46-52 | High exactly for 1, Medium exactly for 2, Low for every other number |
| TasksManager.PriorityColor | src/components/dashboard/TasksManager.tsx:38-44 | red exactly for 1, yellow exactly for 2, green otherwise |
| TasksManager.PriorityColorMatchesText | src/components/dashboard/TasksManager.tsx:38-52 | a priority's colour is the colour of its level: High red, Medium yellow, Low green |
| TasksManager.StatusColor | src/components/dashboard/TasksManager.tsx:54-61 | completed green, in_progress blue, cancelled red, any other status gray |
| TasksManager.StatusLabel | src/components/dashboard/TasksManager.tsx:94 | only the first underscore becomes a space, and everything after it is kept; a status without an underscore is unchanged |
| TasksManager.LabelKeepsLaterUnderscores | src/components/dashboard/TasksManager.tsx:94 | the label has exactly one underscore fewer than the status |
| TasksManager.Shown | src/components/dashboard/TasksManager.tsx:80-88 | the project, agent and due date spans show exactly for set, non-empty values |
| TasksManager.Render | src/components/dashboard/TasksManager.tsx:63-111 | while loading only the loading view renders; otherwise one card per task in order, and the empty notice exactly when there are no tasks |
| TasksManager.TasksView.constructor | src/components/dashboard/TasksManager.tsx:17-18 | it starts with no tasks and loading |
| TasksManager.TasksView.FetchTasks | src/components/dashboard/TasksManager.tsx:24-36 | tasks are replaced only by a successful answer; loading ends on every outcome, so the list view renders |
| AgentsManager.StatusColor | src/components/dashboard/AgentsManager.tsx:62-68 | active green, inactive gray, any other status yellow |
| AgentsManager.AgentsView.constructor | src/components/dashboard/AgentsManager.tsx:16-23 | it starts with no agents, loading, and the initial form ('', 'coding', '', []) |
| AgentsManager.AgentsView.View | src/components/dashboard/AgentsManager.tsx:70-72 | while loading only the loading notice renders |
| AgentsManager.AgentsView.FetchAgents | src/components/dashboard/AgentsManager.tsx:29-41 | agents are replaced only by a successful answer; loading ends on every outcome; the form is untouched |
| AgentsManager.AgentsView.CreateAgent | src/components/dashboard/AgentsManager.tsx:43-60 | the current form is posted; a successful answer refetches the list and resets the form to exactly the initial one; any other answer or a throw changes nothing |
| Host.RunEffects | scripts/hybrid_coding_agent.py:275-325 | the steps attempted are always a prefix of the plan |
| Host.RunEffectsCompletes | scripts/hybrid_coding_agent.py:275-322 | a run ends without error exactly when no step of the plan raises, and then the whole plan was attempted and applied in order |
| Host.RunEffectsStops | scripts/hybrid_coding_agent.py:324-325 | a run that ends in an error stopped at the first raising step: the error is that step's text and only the steps before it took effect |

## Left out

- Printed output (banners, `json.dumps` dumps, the `Running:` echo, `console.error`) is not modelled. The exceptions are the command-line entry points, whose printed lines are modelled as what `Main` returns: the usage and unknown-command lines of hybrid_coding_agent.py; the introduction and the "Unknown command" line of anders_agent.py; and, in codex_integration.py, the command list shown when authenticated and the status shown otherwise. Otherwise only the values the functions return or the state they keep are modelled.
- The template texts, the introduction text, the chat system prompt's role and the Codex prompts are opaque constants. Their wording is not modelled.
- Timestamps (`datetime.now().isoformat()`) are parameters.
- The real filesystem, `os.chdir`, `subprocess.run`, `requests.post`, `fetch` and the MySQL driver are inputs. Outcomes are given per step, including the rejection of `connection.end()`.
- Filesystem errors other than those a step is said to raise, and text encodings, are not modelled.
- `device_auth_flow` in openai_integration.py is not modelled: it returns a constant placeholder. The `__main__` block of that script only prints.
- `temperature: 0.3` in the chat request is a float and is not modelled.
- OpenAIIntegration.CodeGeneration: the request's model ("gpt-4") and max_tokens (2000) are carried in the request but not stated in the contract.
- `introduce` in anders_agent.py returns its text. The text is not modelled.
- Attributes an agent inherits from `object` (`__class__`, `__dict__` and others) are not modelled in the `hasattr` dispatch. Neither is what calling them does.
- scripts/phase_two_setup.py is not part of this model. Neither are src/app/api/agents/route.ts, src/app/api/tasks/route.ts, src/app/page.tsx and src/app/dashboard/page.tsx.
- Of the three handlers of hybrid_coding_agent.py, only `initialize_git_repo` catches exceptions. For create_api_routes and setup_database_connection, a raising step is modelled as an uncaught exception (no report).
- AndersAgent: `implement_api` is modelled by its plan only (`ImplementApiIdempotent`). What happens when its mkdir or write raises (an uncaught exception) is not modelled.
- The success reports of setup_database_connection and initialize_git_repo have no `routes` field in the source. Both are modelled with an empty route list.
- `dirs` of a `FileTree` is a set. The model does not require that every parent of a file is a directory.
- Task priorities are integers in the model. A non-integer JavaScript number falls into the default (Low, green) branch in the source, as it does here for any value other than 1 and 2.
- Due dates are shown as stored: `toLocaleDateString` formatting is not modelled.
- Database.QueryMarksMatchValues: the table name and the keys enter the INSERT statement unescaped, so a "?" in either adds a placeholder with no value to match it. The lemma states the count only when neither holds a "?".
- The record passed to `insertRecord` is modelled as its entries in `Object.keys` order. JavaScript's ordering of integer-like keys first is not modelled.
- Database.DatabaseManager.InsertRecord: when the driver answers an INSERT with rows instead of a result header, the source returns `undefined`. This is modelled as `None`.
- React scheduling and the interleaving of asynchronous calls are not modelled: `fetchAgents` after a successful create, and the `useEffect` fetch on mount. Each handler is one sequential state transition, and the refetch runs before the form reset.
- AgentsManager.AgentsView.View: the list and form markup is not modelled; the content view carries only the list and the form.
- `check_git_status` never reads the exit code of `git status`. A directory that is not a git repository makes `git status` exit with an error and print nothing on stdout. The code reads that as "clean", not "no_git": "no_git" is reported only when the call itself raises, for instance when git is not installed.

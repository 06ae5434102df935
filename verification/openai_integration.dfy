/**
  `OpenAIIntegration` from scripts/openai_integration.py: the project analysis
  (which key files exist and which single next step follows) and the guard and
  response classification of `code_generation`. The HTTP exchange is an input:
  the request the script would send is returned, and the server's answer is
  given as a `PostOutcome`.
 */
module OpenAIIntegration {
  import opened Text
  import opened Host

  const BaseUrl := "https://api.openai.com/v1"
  const Model := "gpt-4"
  const MaxTokens := 2000

  /** The files `analyze_project` looks for, in the order it looks. */
  const KeyFiles: seq<string> := [
    "package.json",
    "next.config.js",
    "tailwind.config.js",
    "src/app/page.tsx",
    "src/app/dashboard/page.tsx",
    "database/schema.sql",
    ".github/workflows/deploy.yml"
  ]

  const InitializeProject := "Initialize Next.js project"
  const ImplementApiRoutes := "Implement API routes"
  const ReadyForDeployment := "Ready for deployment"

  /** The dictionary `analyze_project` returns. */
  datatype Analysis = Analysis(
    timestamp: string,
    projectPath: string,
    filesFound: seq<string>,
    nextSteps: seq<string>)

  /** `candidates` filtered by existence in `t`, keeping their order. */
  function Found(candidates: seq<string>, t: FileTree): seq<string>
    decreases |candidates|
  {
    if candidates == [] then []
    else
      var last := candidates[|candidates| - 1];
      Found(candidates[..|candidates| - 1], t) + (if Exists(t, last) then [last] else [])
  }

  /** `sub` is `s` with some elements left out, the rest kept in order. */
  predicate IsSubsequence<T(==)>(sub: seq<T>, s: seq<T>)
    decreases |s|
  {
    if sub == [] then true
    else if s == [] then false
    else if sub[|sub| - 1] == s[|s| - 1] then IsSubsequence(sub[..|sub| - 1], s[..|s| - 1])
    else IsSubsequence(sub, s[..|s| - 1])
  }

  predicate NoDuplicates<T(==)>(s: seq<T>) {
    forall i, j :: 0 <= i < j < |s| ==> s[i] != s[j]
  }

  /** A file is found exactly when it is a candidate and exists. */
  lemma {:induction false} FoundMembers(candidates: seq<string>, t: FileTree)
    ensures forall f :: f in Found(candidates, t) <==> f in candidates && Exists(t, f)
    decreases |candidates|
  {
    if candidates != [] {
      var init := candidates[..|candidates| - 1];
      FoundMembers(init, t);
      assert candidates == init + [candidates[|candidates| - 1]];
    }
  }

  /** The found files keep the candidates' order. */
  lemma {:induction false} FoundSubsequence(candidates: seq<string>, t: FileTree)
    ensures IsSubsequence(Found(candidates, t), candidates)
    ensures |Found(candidates, t)| <= |candidates|
    decreases |candidates|
  {
    if candidates != [] {
      var init := candidates[..|candidates| - 1];
      var last := candidates[|candidates| - 1];
      FoundSubsequence(init, t);
      var r := Found(candidates, t);
      if Exists(t, last) {
        assert r[..|r| - 1] == Found(init, t);
      } else {
        assert r == Found(init, t);
        assert candidates == init + [last];
        SubsequenceExtend(Found(init, t), init, last);
      }
    }
  }

  /** Distinct candidates give distinct found files. */
  lemma {:induction false} FoundNoDuplicates(candidates: seq<string>, t: FileTree)
    requires NoDuplicates(candidates)
    ensures NoDuplicates(Found(candidates, t))
    decreases |candidates|
  {
    if candidates != [] {
      var init := candidates[..|candidates| - 1];
      var last := candidates[|candidates| - 1];
      assert NoDuplicates(init);
      FoundNoDuplicates(init, t);
      FoundMembers(init, t);
      assert last !in init;
    }
  }

  /**
    What the loop over the candidates collects: exactly the existing ones, in
    their order, without repeating any when the candidates do not repeat.
   */
  lemma FoundIsExistingSubsequence(candidates: seq<string>, t: FileTree)
    ensures forall f :: f in Found(candidates, t) <==> f in candidates && Exists(t, f)
    ensures IsSubsequence(Found(candidates, t), candidates)
    ensures |Found(candidates, t)| <= |candidates|
    ensures NoDuplicates(candidates) ==> NoDuplicates(Found(candidates, t))
  {
    FoundMembers(candidates, t);
    FoundSubsequence(candidates, t);
    if NoDuplicates(candidates) {
      FoundNoDuplicates(candidates, t);
    }
  }

  /** Appending to the sequence keeps a subsequence a subsequence. */
  lemma {:induction false} SubsequenceExtend<T>(sub: seq<T>, s: seq<T>, x: T)
    requires IsSubsequence(sub, s)
    ensures IsSubsequence(sub, s + [x])
    decreases |s|, 1
  {
    var s' := s + [x];
    assert s'[..|s'| - 1] == s;
    if sub != [] && sub[|sub| - 1] == x {
      SubsequenceDropLast(sub, s);
    }
  }

  /** Dropping the last element of a subsequence keeps it a subsequence. */
  lemma {:induction false} SubsequenceDropLast<T>(sub: seq<T>, s: seq<T>)
    requires sub != [] && IsSubsequence(sub, s)
    ensures IsSubsequence(sub[..|sub| - 1], s)
    decreases |s|, 0
  {
    var init := s[..|s| - 1];
    assert init + [s[|s| - 1]] == s;
    if sub[|sub| - 1] == s[|s| - 1] {
      SubsequenceExtend(sub[..|sub| - 1], init, s[|s| - 1]);
    } else {
      SubsequenceDropLast(sub, init);
      SubsequenceExtend(sub[..|sub| - 1], init, s[|s| - 1]);
    }
  }

  lemma KeyFilesDistinct()
    ensures |KeyFiles| == 7 && NoDuplicates(KeyFiles)
  {
  }

  /** The step `analyze_project` recommends for the files it found. */
  function NextStep(found: seq<string>): string {
    if "package.json" !in found then InitializeProject
    else if !(exists f :: f in found && IsSubstring("api", f)) then ImplementApiRoutes
    else ReadyForDeployment
  }

  /** The configuration files lack one of the letters of "api". */
  lemma NoApiInConfigFiles()
    ensures !IsSubstring("api", "package.json")
    ensures !IsSubstring("api", "next.config.js")
    ensures !IsSubstring("api", "tailwind.config.js")
  {
    SubstringHasChars("api", "package.json", 2);
    SubstringHasChars("api", "next.config.js", 0);
    SubstringHasChars("api", "tailwind.config.js", 1);
  }

  /** The page files lack one of the letters of "api". */
  lemma NoApiInPageFiles()
    ensures !IsSubstring("api", "src/app/page.tsx")
    ensures !IsSubstring("api", "src/app/dashboard/page.tsx")
  {
    SubstringHasChars("api", "src/app/page.tsx", 2);
    SubstringHasChars("api", "src/app/dashboard/page.tsx", 2);
  }

  /** The schema and the workflow lack one of the letters of "api". */
  lemma NoApiInDataFiles()
    ensures !IsSubstring("api", "database/schema.sql")
    ensures !IsSubstring("api", ".github/workflows/deploy.yml")
  {
    SubstringHasChars("api", "database/schema.sql", 2);
    SubstringHasChars("api", ".github/workflows/deploy.yml", 0);
  }

  /** No key file name contains "api": each one lacks one of the letters 'a', 'p', 'i'. */
  lemma NoKeyFileMentionsApi()
    ensures forall f :: f in KeyFiles ==> !IsSubstring("api", f)
  {
    NoApiInConfigFiles();
    NoApiInPageFiles();
    NoApiInDataFiles();
  }

  /**
    With the fixed key file list the recommendation depends on package.json
    alone, and "Ready for deployment" is never recommended.
   */
  lemma ReadyForDeploymentUnreachable(t: FileTree)
    ensures NextStep(Found(KeyFiles, t)) ==
              if Exists(t, "package.json") then ImplementApiRoutes else InitializeProject
    ensures NextStep(Found(KeyFiles, t)) != ReadyForDeployment
  {
    FoundIsExistingSubsequence(KeyFiles, t);
    NoKeyFileMentionsApi();
  }

  /** What the choice of the next step needs to know about the files found. */
  lemma KeyFileFacts(t: FileTree)
    ensures forall f :: f in Found(KeyFiles, t) <==> f in KeyFiles && Exists(t, f)
    ensures NoDuplicates(Found(KeyFiles, t)) && |Found(KeyFiles, t)| <= 7
    ensures "package.json" in Found(KeyFiles, t) <==> Exists(t, "package.json")
    ensures !(exists f :: f in Found(KeyFiles, t) && IsSubstring("api", f))
  {
    KeyFilesDistinct();
    FoundIsExistingSubsequence(KeyFiles, t);
    NoKeyFileMentionsApi();
  }

  /** `analyze_project`: `timestamp` stands for `datetime.now().isoformat()`. */
  method AnalyzeProject(projectPath: string, t: FileTree, timestamp: string) returns (a: Analysis)
    ensures a.projectPath == projectPath && a.timestamp == timestamp
    ensures a.filesFound == Found(KeyFiles, t)
    ensures forall f :: f in a.filesFound <==> f in KeyFiles && Exists(t, f)
    ensures NoDuplicates(a.filesFound) && |a.filesFound| <= 7
    ensures a.nextSteps == [if Exists(t, "package.json") then ImplementApiRoutes else InitializeProject]
  {
    a := Analysis(timestamp, projectPath, [], []);
    for k := 0 to |KeyFiles|
      invariant a == Analysis(timestamp, projectPath, Found(KeyFiles[..k], t), [])
    {
      assert KeyFiles[..k + 1][..k] == KeyFiles[..k];
      if Exists(t, KeyFiles[k]) {
        a := a.(filesFound := a.filesFound + [KeyFiles[k]]);
      }
    }
    assert KeyFiles[..|KeyFiles|] == KeyFiles;
    KeyFileFacts(t);
    if "package.json" !in a.filesFound {
      a := a.(nextSteps := a.nextSteps + [InitializeProject]);
    } else if !(exists f :: f in a.filesFound && IsSubstring("api", f)) {
      a := a.(nextSteps := a.nextSteps + [ImplementApiRoutes]);
    } else {
      a := a.(nextSteps := a.nextSteps + [ReadyForDeployment]);
    }
  }

  /** The request body and headers `code_generation` posts. */
  datatype ChatRequest = ChatRequest(
    url: string,
    authorization: string,
    model: string,
    systemMessage: string,
    userMessage: string,
    maxTokens: nat)

  /** The parsed body of a response: the contents of `choices[i].message.content`, or the text of the exception reading it raises. */
  datatype Body = Choices(contents: seq<string>) | Unreadable(error: string)

  /** What `requests.post` produced: a response, or the text of the exception it raised. */
  datatype PostOutcome = Responded(status: nat, text: string, body: Body) | PostRaised(error: string)

  /** What `code_generation` sends (if anything) and returns. */
  datatype Generation = Generation(sent: Option<ChatRequest>, reply: string)

  const NotConfigured := "❌ OpenAI API key not configured. Set OPENAI_API_KEY environment variable."
  const ApiErrorPrefix := "❌ API Error: "
  const ErrorPrefix := "❌ Error: "
  const IndexOutOfRange := "list index out of range"

  /** The project description the system message carries around `context`. */
  const SystemHead := "You are Anders, Simon's coding agent for the Command Center project.\n            \nProject Context:\n- Next.js 15 + TypeScript + Tailwind CSS\n- MySQL database with agents, tasks, projects tables\n- Goal: AI-powered task and agent management system\n\nCurrent context: "
  const SystemTail := "\n\nGenerate practical, working code that follows TypeScript/Next.js best practices."

  /**
    `code_generation(prompt, context)` with `OPENAI_API_KEY` read as `apiKey`
    and the server's answer as `outcome`.
   */
  function CodeGeneration(apiKey: Option<string>, prompt: string, context: string, outcome: PostOutcome): (g: Generation)
    ensures !Truthy(apiKey) ==> g == Generation(None, NotConfigured)
    ensures Truthy(apiKey) ==>
              && g.sent.Some?
              && g.sent.value.url == BaseUrl + "/chat/completions"
              && g.sent.value.authorization == "Bearer " + apiKey.value
              && g.sent.value.userMessage == prompt
              && g.sent.value.systemMessage == SystemHead + context + SystemTail
  {
    if !Truthy(apiKey) then Generation(None, NotConfigured)
    else
      var request := ChatRequest(BaseUrl + "/chat/completions", "Bearer " + apiKey.value, Model,
                                 SystemHead + context + SystemTail, prompt, MaxTokens);
      Generation(Some(request), Reply(outcome))
  }

  /** The string returned for a posted request, by the response's status. */
  function Reply(outcome: PostOutcome): string {
    match outcome
    case PostRaised(e) => ErrorPrefix + e
    case Responded(status, text, body) =>
      if status == 200 then
        match body
        case Choices(contents) => if contents == [] then ErrorPrefix + IndexOutOfRange else contents[0]
        case Unreadable(e) => ErrorPrefix + e
      else ApiErrorPrefix + Decimal(status) + " - " + text
  }

  /** The status code an "API Error" reply names, read back from the reply. */
  function ReportedStatus(reply: string): Option<nat> {
    if StartsWith(reply, ApiErrorPrefix) then
      var digits := LeadingDigits(reply[|ApiErrorPrefix|..]);
      if digits == [] then None else Some(DecimalValue(digits))
    else None
  }

  /**
    A 200 response yields the first choice's content; any other status yields
    an "API Error" reply from which that status can be read back.
   */
  lemma ReplyByStatus(apiKey: Option<string>, prompt: string, context: string, outcome: PostOutcome)
    requires Truthy(apiKey) && outcome.Responded?
    ensures var g := CodeGeneration(apiKey, prompt, context, outcome);
            && (outcome.status == 200 && outcome.body.Choices? && outcome.body.contents != [] ==>
                  g.reply == outcome.body.contents[0])
            && (outcome.status != 200 ==>
                  StartsWith(g.reply, ApiErrorPrefix) && ReportedStatus(g.reply) == Some(outcome.status))
  {
    var g := CodeGeneration(apiKey, prompt, context, outcome);
    if outcome.status != 200 {
      var d := Decimal(outcome.status);
      var rest := " - " + outcome.text;
      assert g.reply == ApiErrorPrefix + (d + rest);
      assert g.reply[|ApiErrorPrefix|..] == d + rest;
      LeadingDigitsOfRun(d, rest);
      DecimalRoundTrip(outcome.status);
    }
  }

  /** An "Error" reply is never read as an "API Error" reply carrying a status. */
  lemma ErrorReplyNamesNoStatus(e: string)
    ensures ReportedStatus(ErrorPrefix + e) == None
  {
    assert (ErrorPrefix + e)[2] == 'E' != ApiErrorPrefix[2];
  }

  /**
    The `except` branch: a raising post, an unreadable 200 body and an empty
    `choices` list each give "❌ Error: " followed by the exception's text,
    and none of these replies names a status.
   */
  lemma RaisedReplyNamesNoStatus(apiKey: Option<string>, prompt: string, context: string, text: string, e: string)
    requires Truthy(apiKey)
    ensures CodeGeneration(apiKey, prompt, context, PostRaised(e)).reply == ErrorPrefix + e
    ensures CodeGeneration(apiKey, prompt, context, Responded(200, text, Unreadable(e))).reply == ErrorPrefix + e
    ensures CodeGeneration(apiKey, prompt, context, Responded(200, text, Choices([]))).reply
            == ErrorPrefix + IndexOutOfRange
    ensures ReportedStatus(CodeGeneration(apiKey, prompt, context, PostRaised(e)).reply) == None
    ensures ReportedStatus(CodeGeneration(apiKey, prompt, context, Responded(200, text, Unreadable(e))).reply) == None
    ensures ReportedStatus(CodeGeneration(apiKey, prompt, context, Responded(200, text, Choices([]))).reply) == None
  {
    ErrorReplyNamesNoStatus(e);
    ErrorReplyNamesNoStatus(IndexOutOfRange);
  }
}

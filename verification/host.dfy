/**
  The outside world of the scripts, passed in as data: a snapshot of the project
  tree, the outcome of a subprocess call, the process environment, and the
  effect scripts (chdir, mkdir, write, git) that the scripts run in order inside
  one `try` block.
 */
module Host {

  datatype Option<+T> = None | Some(value: T)

  /**
    The project tree, with paths relative to its root: the regular files with
    their contents, and the directories.
   */
  datatype FileTree = FileTree(files: map<string, string>, dirs: set<string>)

  /** `Path.exists()` and `os.path.exists`: true for a file and for a directory. */
  predicate Exists(t: FileTree, path: string) {
    path in t.files || path in t.dirs
  }

  /** `Path.is_dir()`. */
  predicate IsDir(t: FileTree, path: string) {
    path in t.dirs
  }

  /**
    The directories `mkdir(parents=True, exist_ok=True)` leaves in place for
    `path`: every prefix that ends just before a '/', and `path` itself.
   */
  function DirChain(path: string): set<string> {
    set i | 0 < i <= |path| && (i == |path| || path[i] == '/') :: path[..i]
  }

  /** The exception a subprocess call raises, as far as the scripts tell them apart. */
  datatype Failure =
    | FileNotFound(message: string)    // the executable is missing
    | TimeoutExpired(message: string)  // the `timeout=` bound elapsed
    | OtherError(message: string)

  /** The outcome of `subprocess.run(..., capture_output=True, text=True)` without `check=True`. */
  datatype Process =
    | Completed(returncode: int, stdout: string, stderr: string)
    | Raised(failure: Failure)

  /** The process environment. */
  type Env = map<string, string>

  /** `os.getenv(name)` and `process.env[name]`. */
  function GetEnv(env: Env, name: string): Option<string> {
    if name in env then Some(env[name]) else None
  }

  /** The truth value of an optional string in Python and JavaScript: set and non-empty. */
  predicate Truthy(v: Option<string>) {
    v.Some? && v.value != ""
  }

  /** One step of an effect script. */
  datatype Effect =
    | ChangeDir(dir: string)                  // os.chdir
    | MakeDirs(dir: string)                   // Path.mkdir(parents=True, exist_ok=True)
    | WriteFile(path: string, content: string) // open(path, "w").write(content)
    | Git(args: seq<string>)                  // subprocess.run(["git", *args], check=True)

  /**
    What a step that does not raise does to the tree. Only `git init` changes
    what the tree model records (it creates `.git`).
   */
  function Apply(t: FileTree, e: Effect): FileTree {
    match e
    case ChangeDir(_) => t
    case MakeDirs(d) => t.(dirs := t.dirs + DirChain(d))
    case WriteFile(p, c) => t.(files := t.files[p := c])
    case Git(args) => if args == ["init"] then t.(dirs := t.dirs + {".git"}) else t
  }

  /** The tree after every step of `plan`, in order. */
  function ApplyAll(t: FileTree, plan: seq<Effect>): FileTree
    decreases |plan|
  {
    if plan == [] then t else ApplyAll(Apply(t, plan[0]), plan[1..])
  }

  lemma ApplyAllPair(t: FileTree, a: Effect, b: Effect)
    ensures ApplyAll(t, [a, b]) == Apply(Apply(t, a), b)
  {
    assert [a, b][1..] == [b];
    assert [b][1..] == [];
    assert ApplyAll(t, [a, b]) == ApplyAll(Apply(t, a), [b]);
    assert ApplyAll(Apply(t, a), [b]) == ApplyAll(Apply(Apply(t, a), b), []);
  }

  /** Running two plans one after the other is running their concatenation. */
  lemma {:induction false} ApplyAllAppend(t: FileTree, a: seq<Effect>, b: seq<Effect>)
    ensures ApplyAll(t, a + b) == ApplyAll(ApplyAll(t, a), b)
    decreases |a|
  {
    if a != [] {
      assert (a + b)[0] == a[0];
      assert (a + b)[1..] == a[1..] + b;
      ApplyAllAppend(Apply(t, a[0]), a[1..], b);
    } else {
      assert a + b == b;
    }
  }

  /** The files a plan writes, each with the last content written to it. */
  function Writes(plan: seq<Effect>): map<string, string>
    decreases |plan|
  {
    if plan == [] then map[]
    else
      var first := if plan[0].WriteFile? then map[plan[0].path := plan[0].content] else map[];
      first + Writes(plan[1..])
  }

  /** The directories a plan creates. */
  function CreatedDirs(plan: seq<Effect>): set<string>
    decreases |plan|
  {
    if plan == [] then {}
    else
      var first := match plan[0]
        case MakeDirs(d) => DirChain(d)
        case Git(args) => if args == ["init"] then {".git"} else {}
        case _ => {};
      first + CreatedDirs(plan[1..])
  }

  /** A plan of git commands writes no file. */
  lemma {:induction false} WritesOfGitOnly(plan: seq<Effect>)
    requires forall i :: 0 <= i < |plan| ==> plan[i].Git?
    ensures Writes(plan) == map[]
    decreases |plan|
  {
    if plan != [] {
      WritesOfGitOnly(plan[1..]);
    }
  }

  lemma MapUnionAssoc<K, V>(a: map<K, V>, b: map<K, V>, c: map<K, V>)
    ensures a + b + c == a + (b + c)
  {
  }

  /** The tree's files after a plan: the original ones overridden by those the plan writes. */
  lemma {:induction false} ApplyAllFiles(t: FileTree, plan: seq<Effect>)
    ensures ApplyAll(t, plan).files == t.files + Writes(plan)
    decreases |plan|
  {
    if plan != [] {
      var t' := Apply(t, plan[0]);
      ApplyAllFiles(t', plan[1..]);
      var first := if plan[0].WriteFile? then map[plan[0].path := plan[0].content] else map[];
      assert t'.files == t.files + first;
      MapUnionAssoc(t.files, first, Writes(plan[1..]));
    }
  }

  /** The tree's directories after a plan: the original ones and those the plan creates. */
  lemma {:induction false} ApplyAllDirs(t: FileTree, plan: seq<Effect>)
    ensures ApplyAll(t, plan).dirs == t.dirs + CreatedDirs(plan)
    decreases |plan|
  {
    if plan != [] {
      ApplyAllDirs(Apply(t, plan[0]), plan[1..]);
    }
  }

  /** Running a plan overrides the files it writes and adds the directories it creates; nothing else changes. */
  lemma ApplyAllIsMerge(t: FileTree, plan: seq<Effect>)
    ensures ApplyAll(t, plan) == FileTree(t.files + Writes(plan), t.dirs + CreatedDirs(plan))
  {
    ApplyAllFiles(t, plan);
    ApplyAllDirs(t, plan);
  }

  /**
    A plan of overwrites, directory creations and git commands leaves the
    tree as it found it when it is run a second time.
   */
  lemma ReplayIdempotent(t: FileTree, plan: seq<Effect>)
    ensures ApplyAll(ApplyAll(t, plan), plan) == ApplyAll(t, plan)
  {
    var once := ApplyAll(t, plan);
    ApplyAllIsMerge(t, plan);
    ApplyAllIsMerge(once, plan);
    assert once.files + Writes(plan) == once.files;
  }

  /** The steps that were attempted, the resulting tree, and the text of the exception, if one was raised. */
  datatype Run = Run(attempted: seq<Effect>, tree: FileTree, error: Option<string>)

  /** No step of `plan` raises. */
  predicate NoneRaises(plan: seq<Effect>, raises: map<Effect, string>) {
    forall i :: 0 <= i < |plan| ==> plan[i] !in raises
  }

  /**
    Runs `plan` in order inside one `try` block. `raises` says which steps
    raise and with what text (`str(e)`); a step that raises changes nothing,
    and no later step is attempted. The steps attempted are always a prefix
    of the plan.
   */
  function RunEffects(t: FileTree, plan: seq<Effect>, raises: map<Effect, string>): (r: Run)
    decreases |plan|
    ensures |r.attempted| <= |plan| && r.attempted == plan[..|r.attempted|]
  {
    if plan == [] then Run([], t, None)
    else if plan[0] in raises then Run([plan[0]], t, Some(raises[plan[0]]))
    else
      var rest := RunEffects(Apply(t, plan[0]), plan[1..], raises);
      assert plan[..1 + |rest.attempted|] == [plan[0]] + plan[1..][..|rest.attempted|];
      Run([plan[0]] + rest.attempted, rest.tree, rest.error)
  }

  /** A run ends without error exactly when no step raises, and then it has applied the whole plan. */
  lemma {:induction false} RunEffectsCompletes(t: FileTree, plan: seq<Effect>, raises: map<Effect, string>)
    ensures RunEffects(t, plan, raises).error.None? <==> NoneRaises(plan, raises)
    ensures RunEffects(t, plan, raises).error.None? ==>
              RunEffects(t, plan, raises).attempted == plan && RunEffects(t, plan, raises).tree == ApplyAll(t, plan)
    decreases |plan|
  {
    if plan != [] && plan[0] !in raises {
      RunEffectsCompletes(Apply(t, plan[0]), plan[1..], raises);
      assert forall i :: 0 < i < |plan| ==> plan[i] == plan[1..][i - 1];
      assert plan == [plan[0]] + plan[1..];
    }
  }

  /**
    A run that ends in an error stopped at a raising step: the error is that
    step's text, no earlier step raised, and only the earlier steps took effect.
   */
  lemma {:induction false} RunEffectsStops(t: FileTree, plan: seq<Effect>, raises: map<Effect, string>)
    ensures var r := RunEffects(t, plan, raises);
            r.error.Some? ==>
              && |r.attempted| > 0
              && r.attempted[|r.attempted| - 1] in raises
              && r.error.value == raises[r.attempted[|r.attempted| - 1]]
              && (forall i :: 0 <= i < |r.attempted| - 1 ==> r.attempted[i] !in raises)
              && r.tree == ApplyAll(t, r.attempted[..|r.attempted| - 1])
    decreases |plan|
  {
    if plan != [] && plan[0] !in raises {
      var rest := RunEffects(Apply(t, plan[0]), plan[1..], raises);
      RunEffectsStops(Apply(t, plan[0]), plan[1..], raises);
      var r := RunEffects(t, plan, raises);
      if rest.error.Some? {
        assert r.attempted[..|r.attempted| - 1] == [plan[0]] + rest.attempted[..|rest.attempted| - 1];
      }
    } else if plan != [] {
      var r := RunEffects(t, plan, raises);
      assert r.attempted[..|r.attempted| - 1] == [];
    }
  }

  /** Everything a caller needs about one run. */
  lemma RunEffectsSpec(t: FileTree, plan: seq<Effect>, raises: map<Effect, string>)
    ensures var r := RunEffects(t, plan, raises);
            && (r.error.None? <==> forall i :: 0 <= i < |plan| ==> plan[i] !in raises)
            && (r.error.None? ==> r.attempted == plan && r.tree == ApplyAll(t, plan))
            && (r.error.Some? ==>
                  && |r.attempted| > 0
                  && r.attempted[|r.attempted| - 1] in raises
                  && r.error.value == raises[r.attempted[|r.attempted| - 1]]
                  && (forall i :: 0 <= i < |r.attempted| - 1 ==> r.attempted[i] !in raises)
                  && r.tree == ApplyAll(t, r.attempted[..|r.attempted| - 1]))
  {
    RunEffectsCompletes(t, plan, raises);
    RunEffectsStops(t, plan, raises);
  }
}

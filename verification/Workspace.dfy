/** The workspace of a task: path checks and writes (app/tools/gateway.py), the write
    loop of the implementation agent (app/agents/implementation.py) and the
    validation that fails closed (app/agents/test_engineer.py,
    app/tools/validator.py).

    Paths are lexical and there are no symbolic links; a path of the host is the
    sequence of its components. Contents are their UTF-8 encodings. */
module Workspace {
  import opened Basics

  type Path = seq<string>

  type Content = seq<bv8>

  /** The entries of policies/capabilities.yaml that the code reads. */
  datatype Policy = Policy(root: Path, allowCreate: bool, maxFiles: nat, maxBytes: nat)

  datatype Error =
    | CreationDisabled | UnsafeCharacters | PathEscape | FileTooLarge | TargetEscaped | TooManyFiles | OsFailure

  datatype Result<+T> = Ok(value: T) | Err(error: Error)

  datatype Change = Change(path: string, content: Content)

  datatype Implementation = Implementation(created: seq<string>, modified: seq<string>)

  // ------------------------------------------------------- lexical paths

  predicate SafeChar(c: char) {
    'A' <= c <= 'Z' || 'a' <= c <= 'z' || '0' <= c <= '9' || c == '_' || c == '.' || c == '/' || c == '-'
  }

  predicate SafePath(path: string) {
    path != "" && forall k :: 0 <= k < |path| ==> SafeChar(path[k])
  }

  /** `[A-Za-z0-9_./-]` by code point: digits, upper and lower case, underscore, dot,
      slash and dash. */
  predicate InAlphabet(c: char) {
    var n := c as int;
    48 <= n <= 57 || 65 <= n <= 90 || 97 <= n <= 122 || n == 95 || n == 46 || n == 47 || n == 45
  }

  lemma SafeCharSpelled(c: char)
    ensures SafeChar(c) <==> InAlphabet(c)
  {
  }

  lemma SafePathSpelled(path: string)
    ensures SafePath(path) <==> path != "" && forall c :: c in path ==> InAlphabet(c)
  {
    hide SafeChar, InAlphabet;
    forall c: char
      ensures SafeChar(c) <==> InAlphabet(c)
    {
      SafeCharSpelled(c);
    }
    assert (forall c :: c in path ==> InAlphabet(c)) <==> forall k :: 0 <= k < |path| ==> InAlphabet(path[k]);
  }

  /** The text between slashes, empty pieces included. */
  function Components(path: string): (r: seq<string>)
    ensures r != []
  {
    if path == "" then [""]
    else
      var rest := Components(path[1..]);
      if path[0] == '/' then [""] + rest else [[path[0]] + rest[0]] + rest[1..]
  }

  function Kept(components: seq<string>): seq<string> {
    if components == [] then []
    else (if components[0] == "" || components[0] == "." then [] else [components[0]]) + Kept(components[1..])
  }

  /** `Path(path).parts` of a relative path. */
  function Parts(path: string): seq<string> {
    Kept(Components(path))
  }

  /** `as_posix()` of a relative path. */
  function Join(parts: seq<string>): string {
    if parts == [] then "."
    else if |parts| == 1 then parts[0]
    else parts[0] + "/" + Join(parts[1..])
  }

  predicate IsPart(part: string) {
    part != "" && part != "." && '/' !in part
  }

  predicate AreParts(parts: seq<string>) {
    forall part :: part in parts ==> IsPart(part)
  }

  lemma {:induction false} ComponentsHaveNoSlash(path: string)
    ensures forall c :: c in Components(path) ==> '/' !in c
  {
    if path != "" {
      ComponentsHaveNoSlash(path[1..]);
      var rest := Components(path[1..]);
      assert '/' !in rest[0] by { assert rest[0] in rest; }
    }
  }

  lemma {:induction false} KeptOnlyDrops(components: seq<string>)
    ensures forall c :: c in Kept(components) <==> c in components && c != "" && c != "."
  {
    if components != [] {
      KeptOnlyDrops(components[1..]);
    }
  }

  lemma PartsAreParts(path: string)
    ensures AreParts(Parts(path))
  {
    ComponentsHaveNoSlash(path);
    KeptOnlyDrops(Components(path));
  }

  lemma {:induction false} ComponentsOfJoined(head: string, tail: string)
    requires '/' !in head
    ensures Components(head) == [head]
    ensures Components(head + "/" + tail) == [head] + Components(tail)
  {
    if head == "" {
      assert head + "/" + tail == "/" + tail;
      assert ("/" + tail)[1..] == tail;
    } else {
      ComponentsOfJoined(head[1..], tail);
      assert head == [head[0]] + head[1..];
      assert (head + "/" + tail)[1..] == head[1..] + "/" + tail;
    }
  }

  /** Writing a path out and reading it back gives the same components. */
  lemma {:induction false} PartsOfJoin(parts: seq<string>)
    requires AreParts(parts)
    ensures Parts(Join(parts)) == parts
  {
    if parts == [] {
      ComponentsOfJoined(".", "");
    } else {
      assert IsPart(parts[0]);
      assert AreParts(parts[1..]);
      PartsOfJoin(parts[1..]);
      ComponentsOfJoined(parts[0], Join(parts[1..]));
      if |parts| > 1 {
        assert Components(Join(parts))[1..] == Components(Join(parts[1..]));
      }
      assert parts == [parts[0]] + parts[1..];
    }
  }

  /** Every character of a task identifier outside `[A-Za-z0-9_-]` becomes `_`. */
  function SafeTask(task: string): (r: string)
    ensures |r| == |task|
    ensures forall c :: c in r ==> SafeChar(c) && c != '.' && c != '/'
    ensures forall k :: 0 <= k < |r| ==>
      r[k] == task[k] || (r[k] == '_' && (!SafeChar(task[k]) || task[k] == '.' || task[k] == '/'))
  {
    seq(|task|, k requires 0 <= k < |task| =>
      if SafeChar(task[k]) && task[k] != '.' && task[k] != '/' then task[k] else '_')
  }

  /** Identifiers such as UUIDs are kept as they are, so they stay distinct. */
  lemma SafeTaskKeeps(task: string)
    requires forall c :: c in task ==> SafeChar(c) && c != '.' && c != '/'
    ensures SafeTask(task) == task
  {
    forall k | 0 <= k < |task|
      ensures SafeTask(task)[k] == task[k]
    {
      assert task[k] in task;
    }
  }

  function WorkspaceOf(policy: Policy, task: string): Path {
    policy.root + (if SafeTask(task) == "" then [] else [SafeTask(task)])
  }

  function Target(workspace: Path, path: string): Path {
    workspace + Parts(path)
  }

  predicate ProperPrefix(p: Path, q: Path) {
    |p| < |q| && q[..|p|] == p
  }

  predicate Prefix(p: Path, q: Path) {
    |p| <= |q| && q[..|p|] == p
  }

  function Ancestors(path: Path): (r: set<Path>)
    ensures forall p :: p in r <==> Prefix(p, path)
  {
    set k | 0 <= k <= |path| :: path[..k]
  }

  // ----------------------------------------------------------- acceptance

  /** Everything the gateway checks before it looks at the disk. */
  predicate Accepts(policy: Policy, change: Change) {
    && policy.allowCreate
    && SafePath(change.path) && change.path[0] != '/' && ".." !in Parts(change.path)
    && |change.content| <= policy.maxBytes
    && Parts(change.path) != []
  }

  /** An accepted target lies strictly inside the workspace, by steps that are neither
      empty, nor `.`, nor `..`. */
  lemma AcceptedStaysInside(policy: Policy, task: string, change: Change)
    requires Accepts(policy, change)
    ensures var workspace := WorkspaceOf(policy, task);
      && ProperPrefix(workspace, Target(workspace, change.path))
      && AreParts(Target(workspace, change.path)[|workspace|..])
      && ".." !in Target(workspace, change.path)[|workspace|..]
  {
    PartsAreParts(change.path);
    var workspace := WorkspaceOf(policy, task);
    assert Target(workspace, change.path)[|workspace|..] == Parts(change.path);
  }

  lemma PrefixUnderRoot(root: Path, p: Path, q: Path)
    ensures Prefix(root + p, root + q) <==> Prefix(p, q)
  {
    if |p| <= |q| {
      assert (root + q)[..|root + p|] == root + q[..|p|];
      assert (root + p)[|root|..] == p && (root + q[..|p|])[|root|..] == q[..|p|];
    }
  }

  /** Targets of tasks with different safe names stay apart, with one exception: the
      workspace of an empty identifier is the root, which contains all the others. */
  lemma WorkspacesApart(policy: Policy, task: string, other: string, change: Change)
    requires SafeTask(task) != SafeTask(other)
    ensures Prefix(WorkspaceOf(policy, other), Target(WorkspaceOf(policy, task), change.path)) <==>
      || SafeTask(other) == ""
      || (SafeTask(task) == "" && Parts(change.path) != [] && Parts(change.path)[0] == SafeTask(other))
  {
    hide Parts, SafeTask;
    var name, otherName := SafeTask(task), SafeTask(other);
    var below := (if name == "" then [] else [name]) + Parts(change.path);
    var place := if otherName == "" then [] else [otherName];
    assert Target(WorkspaceOf(policy, task), change.path) == policy.root + below;
    PrefixUnderRoot(policy.root, place, below);
    assert otherName != "" && below != [] ==> (below[..1] == place <==> below[0] == otherName);
  }

  predicate PlainTask(task: string) {
    task != "" && forall c :: c in task ==> SafeChar(c) && c != '.' && c != '/'
  }

  /** Different identifiers made of plain characters, such as UUIDs, never meet. */
  lemma PlainTasksApart(policy: Policy, task: string, other: string, change: Change)
    requires PlainTask(task) && PlainTask(other) && task != other
    ensures !Prefix(WorkspaceOf(policy, other), Target(WorkspaceOf(policy, task), change.path))
  {
    SafeTaskKeeps(task);
    SafeTaskKeeps(other);
    WorkspacesApart(policy, task, other, change);
  }

  // ----------------------------------------------------------- the gateway

  /** The disk has room for a file: nothing on the way down is a file and the place
      itself is no directory. */
  predicate HasRoom(files: map<Path, Content>, dirs: set<Path>, target: Path) {
    (forall p :: p in files ==> !ProperPrefix(p, target)) && target !in dirs
  }

  /** A disk where every entry hangs from directories and nothing is both. */
  ghost predicate Coherent(files: map<Path, Content>, dirs: set<Path>) {
    && (forall p, q :: q in files && ProperPrefix(p, q) ==> p in dirs)
    && (forall p, q :: q in dirs && ProperPrefix(p, q) ==> p in dirs)
    && (forall p :: p in files ==> p !in dirs)
  }

  lemma AncestorsSplit(path: Path, p: Path)
    requires path != []
    ensures ProperPrefix(p, path) <==> p in Ancestors(path[..|path| - 1])
  {
    if |p| < |path| {
      assert path[..|path| - 1][..|p|] == path[..|p|];
    }
  }

  class ToolGateway {
    const policy: Policy
    var files: map<Path, Content>
    var dirs: set<Path>

    constructor (policy: Policy, files: map<Path, Content>, dirs: set<Path>)
      ensures this.policy == policy && this.files == files && this.dirs == dirs
    {
      this.policy := policy;
      this.files := files;
      this.dirs := dirs;
    }

    /** `mkdir(parents=True, exist_ok=True)`. */
    method MakeDirectories(path: Path) returns (ok: bool)
      modifies this`dirs
      ensures ok <==> forall p :: p in files ==> !Prefix(p, path)
      ensures dirs == if ok then old(dirs) + Ancestors(path) else old(dirs)
    {
      ok := forall p :: p in files ==> !Prefix(p, path);
      if ok {
        dirs := dirs + Ancestors(path);
      }
    }

    /** `workspace_for`. */
    method WorkspaceFor(task: string) returns (r: Result<Path>)
      modifies this`dirs
      ensures r.Ok? <==> forall p :: p in files ==> !Prefix(p, WorkspaceOf(policy, task))
      ensures r.Ok? ==> r.value == WorkspaceOf(policy, task) && dirs == old(dirs) + Ancestors(r.value)
      ensures r.Err? ==> r.error == OsFailure && dirs == old(dirs)
    {
      var ok := MakeDirectories(WorkspaceOf(policy, task));
      r := if ok then Ok(WorkspaceOf(policy, task)) else Err(OsFailure);
    }

    /** `write_file`: it succeeds exactly on accepted paths with room on the disk, then
        changes that one file and reports whether it was new; it never removes
        anything, and a refused write changes no file. */
    method WriteFile(task: string, change: Change) returns (r: Result<bool>)
      modifies this`files, this`dirs
      ensures var target := Target(WorkspaceOf(policy, task), change.path);
        && (r.Ok? <==> Accepts(policy, change) && HasRoom(old(files), old(dirs), target))
        && (r.Ok? ==> files == old(files)[target := change.content] && r.value == (target !in old(files)))
        && (r.Ok? ==> forall p :: p in dirs <==> p in old(dirs) || ProperPrefix(p, target))
        && (r.Err? ==> files == old(files) && r.error != TooManyFiles)
      ensures r == Err(CreationDisabled) <==> !policy.allowCreate
      ensures r == Err(UnsafeCharacters) <==>
        policy.allowCreate && (change.path == "" || exists c :: c in change.path && !InAlphabet(c))
      ensures r == Err(PathEscape) <==>
        policy.allowCreate && SafePath(change.path) && (change.path[0] == '/' || ".." in Parts(change.path))
      ensures old(Coherent(files, dirs)) ==> Coherent(files, dirs)
    {
      if !policy.allowCreate {
        return Err(CreationDisabled);
      }
      SafePathSpelled(change.path);
      if !SafePath(change.path) {
        return Err(UnsafeCharacters);
      }
      if change.path[0] == '/' || ".." in Parts(change.path) {
        return Err(PathEscape);
      }
      if |change.content| > policy.maxBytes {
        return Err(FileTooLarge);
      }
      ghost var target := Target(WorkspaceOf(policy, task), change.path);
      InsideWorkspace(WorkspaceOf(policy, task), change.path);
      var located := WorkspaceFor(task);
      if located.Err? {
        return Err(located.error);
      }
      var workspace := located.value;
      assert dirs == old(dirs) + Ancestors(workspace);
      if Parts(change.path) == [] {
        return Err(TargetEscaped);
      }
      var place := Target(workspace, change.path);
      forall p
        ensures ProperPrefix(p, place) <==> Prefix(p, place[..|place| - 1])
        ensures Prefix(p, workspace) ==> ProperPrefix(p, place)
      {
        AncestorsSplit(place, p);
        InsideWorkspace(workspace, change.path);
      }
      var made := MakeDirectories(place[..|place| - 1]);
      if !made {
        return Err(OsFailure);
      }
      if place in dirs {
        return Err(OsFailure);
      }
      var existed := place in files;
      files := files[place := change.content];
      r := Ok(!existed);
    }
  }

  lemma InsideWorkspace(workspace: Path, path: string)
    ensures forall p :: Prefix(p, workspace) ==> Prefix(p, Target(workspace, path))
    ensures Parts(path) != [] ==> forall p :: Prefix(p, workspace) ==> ProperPrefix(p, Target(workspace, path))
  {
    forall p | Prefix(p, workspace)
      ensures Prefix(p, Target(workspace, path))
    {
      assert Target(workspace, path)[..|p|] == workspace[..|p|];
    }
  }

  // ------------------------------------------------- the implementation agent

  function Paths(plan: seq<Change>): (r: seq<string>)
    ensures |r| == |plan|
  {
    seq(|plan|, k requires 0 <= k < |plan| => plan[k].path)
  }

  /** The files after the changes of `plan`, the last write of a place winning. */
  function Written(workspace: Path, plan: seq<Change>, files: map<Path, Content>): map<Path, Content> {
    if plan == [] then files
    else
      var last := plan[|plan| - 1];
      Written(workspace, plan[..|plan| - 1], files)[Target(workspace, last.path) := last.content]
  }

  lemma {:induction false} WrittenKeys(workspace: Path, plan: seq<Change>, files: map<Path, Content>)
    ensures forall p :: p in Written(workspace, plan, files) <==>
      p in files || exists k :: 0 <= k < |plan| && Target(workspace, plan[k].path) == p
  {
    if plan != [] {
      WrittenKeys(workspace, plan[..|plan| - 1], files);
    }
  }

  /** The plan can be carried out: it is not too long, every change is accepted and
      has room on the disk as it is, and no target lies on the way to another. */
  predicate Feasible(policy: Policy, workspace: Path, plan: seq<Change>, files: map<Path, Content>, dirs: set<Path>) {
    && |plan| <= policy.maxFiles
    && FeasibleWrites(policy, workspace, plan, files, dirs)
  }

  predicate FeasibleWrites(policy: Policy, workspace: Path, plan: seq<Change>, files: map<Path, Content>,
                           dirs: set<Path>)
  {
    && (forall k :: 0 <= k < |plan| ==>
          Accepts(policy, plan[k]) && HasRoom(files, dirs, Target(workspace, plan[k].path)))
    && (forall j, k :: 0 <= j < |plan| && 0 <= k < |plan| ==>
          !ProperPrefix(Target(workspace, plan[j].path), Target(workspace, plan[k].path)))
  }

  /** `now` are the directories after the changes of `plan`. */
  ghost predicate DirsAfter(workspace: Path, plan: seq<Change>, dirs: set<Path>, now: set<Path>) {
    forall p :: p in now <==>
      p in dirs || exists j :: 0 <= j < |plan| && ProperPrefix(p, Target(workspace, plan[j].path))
  }

  lemma DirsStep(workspace: Path, plan: seq<Change>, k: nat, dirs: set<Path>, before: set<Path>, after: set<Path>)
    requires k < |plan| && DirsAfter(workspace, plan[..k], dirs, before)
    requires forall p :: p in after <==> p in before || ProperPrefix(p, Target(workspace, plan[k].path))
    ensures DirsAfter(workspace, plan[..k + 1], dirs, after)
  {
    hide Target, ProperPrefix;
    assert plan[..k + 1][k] == plan[k];
    assert forall j :: 0 <= j < k ==> plan[..k + 1][j] == plan[..k][j];
  }

  /** One more change is feasible exactly when it is accepted and finds room on the
      disk the earlier ones left. */
  lemma FeasibleStep(policy: Policy, workspace: Path, plan: seq<Change>, k: nat,
                     files: map<Path, Content>, dirs: set<Path>, dirsNow: set<Path>)
    requires k < |plan|
    requires FeasibleWrites(policy, workspace, plan[..k], files, dirs)
    requires DirsAfter(workspace, plan[..k], dirs, dirsNow)
    ensures var target := Target(workspace, plan[k].path);
      FeasibleWrites(policy, workspace, plan[..k + 1], files, dirs) <==>
      Accepts(policy, plan[k]) && HasRoom(Written(workspace, plan[..k], files), dirsNow, target)
  {
    hide Accepts, Target, Written;
    WrittenKeys(workspace, plan[..k], files);
    var target := Target(workspace, plan[k].path);
    var after := plan[..k + 1];
    assert after[k] == plan[k];
    assert forall j :: 0 <= j < k ==> after[j] == plan[..k][j];
  }

  predicate FirstWrite(workspace: Path, plan: seq<Change>, files: map<Path, Content>, k: nat)
    requires k < |plan|
  {
    var target := Target(workspace, plan[k].path);
    target !in files && forall j :: 0 <= j < k ==> Target(workspace, plan[j].path) != target
  }

  /** The paths of the plan whose write is the first at its place. */
  function CreatedBy(workspace: Path, plan: seq<Change>, files: map<Path, Content>): seq<string> {
    if plan == [] then []
    else
      var n := |plan| - 1;
      CreatedBy(workspace, plan[..n], files) + (if FirstWrite(workspace, plan, files, n) then [plan[n].path] else [])
  }

  predicate PartlyWritten(workspace: Path, plan: seq<Change>, before: map<Path, Content>, after: map<Path, Content>) {
    exists k :: 0 <= k <= |plan| && after == Written(workspace, plan[..k], before)
  }

  /** `ImplementationAgent.run` for a given plan. It succeeds exactly on feasible
      plans; the files written are those of the plan, each path is reported once, as
      created when its file was not there before; a failure leaves a prefix of the
      plan written. */
  method RunImplementation(gateway: ToolGateway, task: string, plan: seq<Change>) returns (r: Result<Implementation>)
    modifies gateway`files, gateway`dirs
    ensures var workspace := WorkspaceOf(gateway.policy, task);
      && (r.Ok? <==> Feasible(gateway.policy, workspace, plan, old(gateway.files), old(gateway.dirs)))
      && (r.Ok? ==>
            && gateway.files == Written(workspace, plan, old(gateway.files))
            && DirsAfter(workspace, plan, old(gateway.dirs), gateway.dirs)
            && r.value.created == CreatedBy(workspace, plan, old(gateway.files))
            && multiset(r.value.created) + multiset(r.value.modified) == multiset(Paths(plan)))
      && (r == Err(TooManyFiles) <==> |plan| > gateway.policy.maxFiles)
      && (r == Err(TooManyFiles) ==> gateway.files == old(gateway.files))
      && (r.Err? ==> PartlyWritten(workspace, plan, old(gateway.files), gateway.files))
    ensures old(Coherent(gateway.files, gateway.dirs)) ==> Coherent(gateway.files, gateway.dirs)
  {
    ghost var workspace := WorkspaceOf(gateway.policy, task);
    ghost var files, dirs := gateway.files, gateway.dirs;
    hide Written, Accepts, HasRoom, Target, ProperPrefix, FirstWrite, FeasibleWrites, Coherent, CreatedBy, Paths,
         WorkspaceOf, DirsAfter, PartlyWritten;
    NothingWritten(gateway.policy, workspace, plan, files, dirs);
    if |plan| > gateway.policy.maxFiles {
      return Err(TooManyFiles);
    }
    var created, modified: seq<string> := [], [];
    for k := 0 to |plan|
      invariant gateway.files == Written(workspace, plan[..k], files)
      invariant DirsAfter(workspace, plan[..k], dirs, gateway.dirs)
      invariant FeasibleWrites(gateway.policy, workspace, plan[..k], files, dirs)
      invariant created == CreatedBy(workspace, plan[..k], files)
      invariant multiset(created) + multiset(modified) == multiset(Paths(plan[..k]))
      invariant old(Coherent(gateway.files, gateway.dirs)) ==> Coherent(gateway.files, gateway.dirs)
    {
      FeasibleStep(gateway.policy, workspace, plan, k, files, dirs, gateway.dirs);
      FirstWriteIsNew(workspace, plan, files, k);
      PlanStep(plan, k);
      WrittenPrefix(workspace, plan, k, files);
      OneMorePath(created, modified, Paths(plan[..k]), plan[k].path);
      ghost var before := gateway.dirs;
      var written := gateway.WriteFile(task, plan[k]);
      if written.Err? {
        NotFeasible(gateway.policy, workspace, plan, k + 1, files, dirs);
        return Err(written.error);
      }
      if written.value {
        created := created + [plan[k].path];
      } else {
        modified := modified + [plan[k].path];
      }
      DirsStep(workspace, plan, k, dirs, before, gateway.dirs);
      WrittenStep(workspace, plan, k, files);
    }
    assert plan[..|plan|] == plan;
    r := Ok(Implementation(created, modified));
  }

  lemma NothingWritten(policy: Policy, workspace: Path, plan: seq<Change>, files: map<Path, Content>, dirs: set<Path>)
    ensures Written(workspace, plan[..0], files) == files
    ensures CreatedBy(workspace, plan[..0], files) == []
    ensures FeasibleWrites(policy, workspace, plan[..0], files, dirs)
    ensures Paths(plan[..0]) == []
    ensures DirsAfter(workspace, plan[..0], dirs, dirs)
    ensures PartlyWritten(workspace, plan, files, files)
  {
    assert files == Written(workspace, plan[..0], files);
  }

  lemma PlanStep(plan: seq<Change>, k: nat)
    requires k < |plan|
    ensures Paths(plan[..k + 1]) == Paths(plan[..k]) + [plan[k].path]
  {
  }

  lemma WrittenPrefix(workspace: Path, plan: seq<Change>, k: nat, files: map<Path, Content>)
    requires k <= |plan|
    ensures PartlyWritten(workspace, plan, files, Written(workspace, plan[..k], files))
  {
  }

  lemma OneMorePath(a: seq<string>, b: seq<string>, all: seq<string>, path: string)
    requires multiset(a) + multiset(b) == multiset(all)
    ensures multiset(a + [path]) + multiset(b) == multiset(all + [path])
    ensures multiset(a) + multiset(b + [path]) == multiset(all + [path])
  {
  }

  lemma WrittenStep(workspace: Path, plan: seq<Change>, k: nat, files: map<Path, Content>)
    requires k < |plan|
    ensures Written(workspace, plan[..k + 1], files) ==
      Written(workspace, plan[..k], files)[Target(workspace, plan[k].path) := plan[k].content]
    ensures CreatedBy(workspace, plan[..k + 1], files) ==
      CreatedBy(workspace, plan[..k], files) + (if FirstWrite(workspace, plan, files, k) then [plan[k].path] else [])
  {
    hide Target;
    var after := plan[..k + 1];
    assert after[..k] == plan[..k] && after[k] == plan[k];
    assert forall j :: 0 <= j < k ==> after[j] == plan[j];
    assert FirstWrite(workspace, after, files, k) <==> FirstWrite(workspace, plan, files, k);
  }

  lemma FirstWriteIsNew(workspace: Path, plan: seq<Change>, files: map<Path, Content>, k: nat)
    requires k < |plan|
    ensures FirstWrite(workspace, plan, files, k) <==>
      Target(workspace, plan[k].path) !in Written(workspace, plan[..k], files)
  {
    hide Target;
    WrittenKeys(workspace, plan[..k], files);
  }

  /** Each created path accounts for one new file, and nothing else is new. */
  lemma {:induction false} CreatedCounts(workspace: Path, plan: seq<Change>, files: map<Path, Content>)
    ensures |Written(workspace, plan, files).Keys| == |files.Keys| + |CreatedBy(workspace, plan, files)|
  {
    hide Target, FirstWrite;
    if plan != [] {
      var n := |plan| - 1;
      CreatedCounts(workspace, plan[..n], files);
      FirstWriteIsNew(workspace, plan, files, n);
      var before, last := Written(workspace, plan[..n], files), Target(workspace, plan[n].path);
      assert before[last := plan[n].content].Keys == before.Keys + {last};
    }
  }

  /** A written place holds what the last change for it says. */
  lemma {:induction false} LastWriteWins(workspace: Path, plan: seq<Change>, files: map<Path, Content>, k: nat)
    requires k < |plan|
    requires forall j :: k < j < |plan| ==> Target(workspace, plan[j].path) != Target(workspace, plan[k].path)
    ensures var target := Target(workspace, plan[k].path);
      target in Written(workspace, plan, files) && Written(workspace, plan, files)[target] == plan[k].content
  {
    hide Target;
    var n := |plan| - 1;
    if k < n {
      LastWriteWins(workspace, plan[..n], files, k);
    }
  }

  /** A file no change is for, those of other tasks included, is as it was. */
  lemma {:induction false} UntouchedElsewhere(workspace: Path, plan: seq<Change>, files: map<Path, Content>, p: Path)
    requires forall k :: 0 <= k < |plan| ==> Target(workspace, plan[k].path) != p
    ensures p in files <==> p in Written(workspace, plan, files)
    ensures p in files ==> Written(workspace, plan, files)[p] == files[p]
  {
    hide Target;
    if plan != [] {
      UntouchedElsewhere(workspace, plan[..|plan| - 1], files, p);
    }
  }

  predicate IsTarget(workspace: Path, plan: seq<Change>, p: Path) {
    exists k :: 0 <= k < |plan| && Target(workspace, plan[k].path) == p
  }

  lemma {:induction false} LastChangeFor(workspace: Path, plan: seq<Change>, p: Path) returns (k: nat)
    requires IsTarget(workspace, plan, p)
    ensures k < |plan| && Target(workspace, plan[k].path) == p
    ensures forall j :: k < j < |plan| ==> Target(workspace, plan[j].path) != p
  {
    hide Target;
    var n := |plan| - 1;
    if Target(workspace, plan[n].path) == p {
      k := n;
    } else {
      k := LastChangeFor(workspace, plan[..n], p);
    }
  }

  /** Files that a run of the plan, cut short anywhere, may leave: only its targets can
      differ, by being new, rewritten or half written. */
  ghost predicate SameElsewhere(workspace: Path, plan: seq<Change>, f: map<Path, Content>, g: map<Path, Content>) {
    forall p :: !IsTarget(workspace, plan, p) ==> (p in f <==> p in g) && (p in f ==> f[p] == g[p])
  }

  lemma PartlyWrittenElsewhere(workspace: Path, plan: seq<Change>, before: map<Path, Content>,
                               after: map<Path, Content>)
    requires PartlyWritten(workspace, plan, before, after)
    ensures SameElsewhere(workspace, plan, before, after)
  {
    hide Target, Written;
    var k :| 0 <= k <= |plan| && after == Written(workspace, plan[..k], before);
    forall p | !IsTarget(workspace, plan, p)
      ensures (p in before <==> p in after) && (p in before ==> before[p] == after[p])
    {
      forall j | 0 <= j < k
        ensures Target(workspace, plan[..k][j].path) != p
      {
        assert plan[..k][j] == plan[j];
      }
      UntouchedElsewhere(workspace, plan[..k], before, p);
    }
  }

  lemma SameOutsideTargets(workspace: Path, plan: seq<Change>, f: map<Path, Content>, g: map<Path, Content>)
    requires SameElsewhere(workspace, plan, f, g)
    ensures Written(workspace, plan, f) == Written(workspace, plan, g)
  {
    var a, b := Written(workspace, plan, f), Written(workspace, plan, g);
    forall p
      ensures p in a <==> p in b
      ensures p in a ==> a[p] == b[p]
    {
      if IsTarget(workspace, plan, p) {
        var k := LastChangeFor(workspace, plan, p);
        LastWriteWins(workspace, plan, f, k);
        LastWriteWins(workspace, plan, g, k);
      } else {
        UntouchedElsewhere(workspace, plan, f, p);
        UntouchedElsewhere(workspace, plan, g, p);
      }
    }
  }

  /** A run that died anywhere, in the middle of a write included, and is started over
      with the same plan succeeds if the plan was feasible to begin with, and leaves
      the files of one undisturbed run. */
  lemma RerunEndsAlike(policy: Policy, workspace: Path, plan: seq<Change>, files: map<Path, Content>, dirs: set<Path>,
                       filesNow: map<Path, Content>, dirsNow: set<Path>)
    requires Feasible(policy, workspace, plan, files, dirs)
    requires SameElsewhere(workspace, plan, files, filesNow)
    requires forall p :: p in dirsNow ==>
      p in dirs || exists j :: 0 <= j < |plan| && ProperPrefix(p, Target(workspace, plan[j].path))
    ensures Feasible(policy, workspace, plan, filesNow, dirsNow)
    ensures Written(workspace, plan, filesNow) == Written(workspace, plan, files)
  {
    hide Target, Accepts;
    SameOutsideTargets(workspace, plan, files, filesNow);
    forall p | p in filesNow
      ensures p in files || IsTarget(workspace, plan, p)
    {
    }
  }

  lemma FeasiblePart(policy: Policy, workspace: Path, plan: seq<Change>, k: nat, files: map<Path, Content>,
                     dirs: set<Path>)
    requires k <= |plan| && Feasible(policy, workspace, plan, files, dirs)
    ensures Feasible(policy, workspace, plan[..k], files, dirs)
  {
    hide Accepts, HasRoom, Target, ProperPrefix;
  }

  lemma DirsOfPart(workspace: Path, plan: seq<Change>, k: nat, dirs: set<Path>, now: set<Path>)
    requires k <= |plan| && DirsAfter(workspace, plan[..k], dirs, now)
    ensures forall p :: p in now ==>
      p in dirs || exists j :: 0 <= j < |plan| && ProperPrefix(p, Target(workspace, plan[j].path))
  {
    hide Target, ProperPrefix;
    forall p | p in now && p !in dirs
      ensures exists j :: 0 <= j < |plan| && ProperPrefix(p, Target(workspace, plan[j].path))
    {
      var j :| 0 <= j < k && ProperPrefix(p, Target(workspace, plan[..k][j].path));
      assert plan[j] == plan[..k][j];
    }
  }

  /** A run that dies after `k` writes, and the run that recovery starts in its place:
      it succeeds, the files are those of one undisturbed run, and it reports each path
      once; only the split into created and modified tells them apart. */
  method RunAgainAfterDeath(gateway: ToolGateway, task: string, plan: seq<Change>, k: nat)
    returns (r: Result<Implementation>)
    requires k <= |plan|
    requires Feasible(gateway.policy, WorkspaceOf(gateway.policy, task), plan, gateway.files, gateway.dirs)
    modifies gateway`files, gateway`dirs
    ensures var workspace := WorkspaceOf(gateway.policy, task);
      && r.Ok? && gateway.files == Written(workspace, plan, old(gateway.files))
      && multiset(r.value.created) + multiset(r.value.modified) == multiset(Paths(plan))
      && r.value.created == CreatedBy(workspace, plan, Written(workspace, plan[..k], old(gateway.files)))
  {
    ghost var workspace := WorkspaceOf(gateway.policy, task);
    ghost var files, dirs := gateway.files, gateway.dirs;
    FeasiblePart(gateway.policy, workspace, plan, k, files, dirs);
    var _ := RunImplementation(gateway, task, plan[..k]);
    WrittenPrefix(workspace, plan, k, files);
    PartlyWrittenElsewhere(workspace, plan, files, gateway.files);
    DirsOfPart(workspace, plan, k, dirs, gateway.dirs);
    RerunEndsAlike(gateway.policy, workspace, plan, files, dirs, gateway.files, gateway.dirs);
    hide Feasible, Written, SameElsewhere, WorkspaceOf, CreatedBy, DirsAfter, PartlyWritten;
    r := RunImplementation(gateway, task, plan);
  }

  lemma NotFeasible(policy: Policy, workspace: Path, plan: seq<Change>, k: nat, files: map<Path, Content>,
                    dirs: set<Path>)
    requires k <= |plan| && !FeasibleWrites(policy, workspace, plan[..k], files, dirs)
    ensures !FeasibleWrites(policy, workspace, plan, files, dirs)
  {
    hide Accepts, HasRoom, Target, ProperPrefix;
    assert forall j :: 0 <= j < k ==> plan[..k][j] == plan[j];
  }

  // ------------------------------------------------------------- validation

  /** `ControlledValidator.relative_files`. */
  function RelativeFiles(workspace: Path, files: map<Path, Content>): set<string> {
    set p | p in files && ProperPrefix(workspace, p) :: Join(p[|workspace|..])
  }

  predicate IsRelative(path: string) {
    path == "" || path[0] != '/'
  }

  /** The root of an absolute path: exactly two leading slashes stay two. */
  function RootOf(path: string): string {
    if |path| >= 2 && path[1] == '/' && (|path| == 2 || path[2] != '/') then "//" else "/"
  }

  /** `PurePosixPath(path).as_posix()`. */
  function AsPosix(path: string): string {
    if IsRelative(path) then Join(Parts(path))
    else RootOf(path) + (if Parts(path) == [] then "" else Join(Parts(path)))
  }

  /** `_declared_files`. */
  function Declared(implementation: Implementation): set<string> {
    set path | path in implementation.created + implementation.modified :: AsPosix(path)
  }

  /** `workspace_integrity` passes. */
  predicate Integrity(declared: set<string>, present: set<string>) {
    declared != {} && declared <= present
  }

  /** Whatever an implementation result declares, the check passes exactly when it
      declares something and every declared path is relative, names something below
      the workspace, and is a file there. */
  lemma IntegrityMeansPresent(workspace: Path, files: map<Path, Content>, implementation: Implementation)
    requires forall p :: p in files && ProperPrefix(workspace, p) ==> AreParts(p[|workspace|..])
    ensures Integrity(Declared(implementation), RelativeFiles(workspace, files)) <==>
      && implementation.created + implementation.modified != []
      && forall path :: path in implementation.created + implementation.modified ==>
           IsRelative(path) && Parts(path) != [] && Target(workspace, path) in files
  {
    var paths := implementation.created + implementation.modified;
    assert paths != [] ==> paths[0] in paths && AsPosix(paths[0]) in Declared(implementation);
    forall path | path in paths
      ensures AsPosix(path) in RelativeFiles(workspace, files) <==>
        IsRelative(path) && Parts(path) != [] && Target(workspace, path) in files
    {
      PresentExactly(workspace, files, path);
    }
  }

  lemma JoinedNotEmpty(parts: seq<string>)
    requires AreParts(parts)
    ensures Join(parts) != "" && Join(parts)[0] != '/'
  {
    if parts != [] {
      assert IsPart(parts[0]);
    }
  }

  /** One leading slash is a root, exactly two are another, and more are one again. */
  lemma RootsSpelled(rest: string)
    requires IsRelative(rest)
    ensures RootOf("/" + rest) == "/" && RootOf("//" + rest) == "//"
    ensures forall more: string :: RootOf("///" + more) == "/"
  {
    assert ("//" + rest)[1] == '/' && ("/" + rest)[0] == '/';
    assert rest != "" ==> ("//" + rest)[2] == rest[0] && ("/" + rest)[1] == rest[0];
    forall more: string
      ensures RootOf("///" + more) == "/"
    {
      assert ("///" + more)[2] == '/';
    }
  }

  lemma SlashAddsNothing(path: string)
    ensures Parts("/" + path) == Parts(path)
  {
    assert ("/" + path)[1..] == path;
    assert Components("/" + path) == [""] + Components(path);
    assert ([""] + Components(path))[1..] == Components(path);
  }

  /** Normalising a path keeps its components, its root, and whether it has one. */
  lemma AsPosixKeeps(path: string)
    ensures Parts(AsPosix(path)) == Parts(path)
    ensures IsRelative(AsPosix(path)) <==> IsRelative(path)
    ensures !IsRelative(path) ==> RootOf(AsPosix(path)) == RootOf(path)
  {
    var parts := Parts(path);
    PartsAreParts(path);
    PartsOfJoin(parts);
    JoinedNotEmpty(parts);
    if !IsRelative(path) {
      var tail := if parts == [] then "" else Join(parts);
      RootsSpelled(tail);
      SlashAddsNothing(tail);
      SlashAddsNothing("/" + tail);
      assert "/" + ("/" + tail) == "//" + tail;
      assert Components("") == [""] && Parts("") == [];
    }
  }

  lemma JoinStartsPlain(parts: seq<string>)
    requires parts != [] && AreParts(parts)
    ensures Join(parts) != "" && Join(parts)[0] != '/'
  {
    assert IsPart(parts[0]);
  }

  lemma PresentExactly(workspace: Path, files: map<Path, Content>, path: string)
    requires forall p :: p in files && ProperPrefix(workspace, p) ==> AreParts(p[|workspace|..])
    ensures AsPosix(path) in RelativeFiles(workspace, files) <==>
      IsRelative(path) && Parts(path) != [] && Target(workspace, path) in files
  {
    var target := Target(workspace, path);
    PartsAreParts(path);
    PartsOfJoin(Parts(path));
    if AsPosix(path) in RelativeFiles(workspace, files) {
      var p :| p in files && ProperPrefix(workspace, p) && Join(p[|workspace|..]) == AsPosix(path);
      JoinStartsPlain(p[|workspace|..]);
      PartsOfJoin(p[|workspace|..]);
      assert p == workspace + p[|workspace|..];
    }
    if Parts(path) != [] {
      assert ProperPrefix(workspace, target) && target[|workspace|..] == Parts(path);
    }
  }

  /** After a successful run, whatever was in the workspace before, the declared files
      are those of the plan and the check passes exactly when the plan has a file. */
  lemma RunThenIntegrity(policy: Policy, workspace: Path, plan: seq<Change>, files: map<Path, Content>, dirs: set<Path>,
                         implementation: Implementation)
    requires Feasible(policy, workspace, plan, files, dirs)
    requires multiset(implementation.created) + multiset(implementation.modified) == multiset(Paths(plan))
    ensures forall path :: path in implementation.created + implementation.modified <==> path in Paths(plan)
    ensures var present := RelativeFiles(workspace, Written(workspace, plan, files));
            Integrity(Declared(implementation), present) <==> plan != []
  {
    var after := Written(workspace, plan, files);
    var paths := implementation.created + implementation.modified;
    forall path
      ensures path in paths <==> path in Paths(plan)
    {
      assert path in paths <==> path in multiset(implementation.created) + multiset(implementation.modified);
      assert path in Paths(plan) <==> path in multiset(Paths(plan));
    }
    WrittenKeys(workspace, plan, files);
    forall path | path in paths
      ensures AsPosix(path) in RelativeFiles(workspace, after)
    {
      var k :| 0 <= k < |plan| && Paths(plan)[k] == path;
      assert Accepts(policy, plan[k]);
      var target := Target(workspace, path);
      assert target in after;
      assert ProperPrefix(workspace, target) && target[|workspace|..] == Parts(path);
    }
    if plan != [] {
      assert Paths(plan)[0] in paths;
      assert AsPosix(Paths(plan)[0]) in Declared(implementation);
    } else {
      assert |Paths(plan)| == 0;
      assert forall path :: path !in paths;
    }
  }

  datatype SyntaxStatus = SyntaxPass | SyntaxFail | SyntaxSkipped

  datatype ScanSeverity = ScanLow | ScanMedium | ScanHigh | ScanCritical

  datatype Report = Report(testPassed: bool, scannersPassed: bool)

  /** `TestAgent.run`; the syntax tests and the scan are taken as given. Validation
      passes only when the declared files are there, whatever else was found. */
  method Validate(gateway: ToolGateway, task: string, implementation: Implementation,
                  syntax: seq<SyntaxStatus>, findings: seq<ScanSeverity>) returns (r: Result<Report>)
    modifies gateway`dirs
    ensures var workspace := WorkspaceOf(gateway.policy, task);
      && (r.Ok? <==> forall p :: p in gateway.files ==> !Prefix(p, workspace))
      && (r.Ok? ==>
            && (r.value.testPassed <==>
                  && Integrity(Declared(implementation), RelativeFiles(workspace, gateway.files))
                  && SyntaxFail !in syntax)
            && (r.value.scannersPassed <==> ScanHigh !in findings && ScanCritical !in findings))
  {
    var located := gateway.WorkspaceFor(task);
    if located.Err? {
      return Err(located.error);
    }
    var present := RelativeFiles(located.value, gateway.files);
    var integrity := Integrity(Declared(implementation), present);
    var testPassed := integrity && forall t :: t in syntax ==> t == SyntaxPass || t == SyntaxSkipped;
    var scannersPassed := !exists f :: f in findings && (f == ScanCritical || f == ScanHigh);
    r := Ok(Report(testPassed, scannersPassed));
  }
}

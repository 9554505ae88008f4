/**
 Planning the setup changes, and running setup twice.  The planner reads the project, renames
 its module, name and slug, and proposes the two local files; parsing and printing of YAML and
 go.mod are parameters that are only required to read back what they print.
 */
module SetupPlan {
  import opened Prelude
  import opened YamlTree
  import opened Rename
  import opened Slug
  import opened SetupRun

  datatype GoMod = GoMod(module_: string, rest: string)

  /** The formats setup reads and prints, and the module path check. */
  datatype Formats = Formats(
    parse: string -> Option<Tree>,
    marshal: Tree -> string,
    parseMod: string -> Option<GoMod>,
    formatMod: GoMod -> string,
    validModule: string -> bool)

  /** The document can be printed, and what was printed reads the same at this path. */
  predicate ReadsBackAt(f: Formats, t: Tree, q: Path) {
    f.parse(f.marshal(t)).Some? && Get(f.parse(f.marshal(t)).value, q) == Get(t, q)
  }

  /** What is asked of the formats, for this project and these names only: its configuration parses to a
      well-formed tree; as edited it reads back at the two fields that name the project; and so does its go.mod. */
  predicate Lawful(f: Formats, p: Project, n: Names) {
    && (CONFIG_PATH in p.files && f.parse(p.files[CONFIG_PATH].content).Some? ==>
          LawfulConfig(f, f.parse(p.files[CONFIG_PATH].content).value, n))
    && f.parseMod(f.formatMod(n.mod.(module_ := n.newModule))) == Some(n.mod.(module_ := n.newModule))
  }

  predicate LawfulConfig(f: Formats, t: Tree, n: Names) {
    && WellFormed(t)
    && (Renames(n) && RenameDocument(t, n, CONFIG_PATH).ok ==>
          && ReadsBackAt(f, RenameDocument(t, n, CONFIG_PATH).tree, ["app", "slug"])
          && ReadsBackAt(f, RenameDocument(t, n, CONFIG_PATH).tree, ["app", "name"]))
  }

  datatype Options = Options(module_: string, name: string, slug: string)

  /** Random values drawn by this run. */
  datatype Secrets = Secrets(jwt: string, password: string, hash: string)

  datatype Project = Project(files: map<FilePath, File>, special: set<FilePath>)

  const GO_MOD_PATH: FilePath := ["go.mod"]
  const CONFIG_PATH: FilePath := ["configs", "config.yaml"]
  const EXAMPLE_PATH: FilePath := ["configs", "config.local.example.yaml"]
  const LOCAL_PATH: FilePath := ["configs", "config.local.yaml"]
  const SEED_PATH: FilePath := ["db", "seeds", "001_seed_admin.sql"]
  const LOCAL_SEED_PATH: FilePath := ["db", "seeds", "001_seed_admin.local.sql"]
  const COMPOSE_PATH: FilePath := ["docker-compose.yml"]
  const README_PATH: FilePath := ["README.md"]
  const PLACEHOLDER := "__INITRA_ADMIN_PASSWORD_HASH__"
  const LOCAL_MODE := 0x180

  // ------------------------------------------------------------------- text

  function HasSuffix(s: string, suffix: string): bool {
    |suffix| <= |s| && s[|s| - |suffix|..] == suffix
  }

  /** bytes.ReplaceAll. */
  function ReplaceAll(s: string, a: string, b: string): string
    requires a != []
  {
    if s == [] then []
    else if a <= s then b + ReplaceAll(s[|a|..], a, b)
    else [s[0]] + ReplaceAll(s[1..], a, b)
  }

  lemma {:induction false} ReplaceAllSame(s: string, a: string)
    requires a != []
    ensures ReplaceAll(s, a, a) == s
  {
    if s != [] {
      if a <= s {
        ReplaceAllSame(s[|a|..], a);
        assert s == a + s[|a|..];
      } else {
        ReplaceAllSame(s[1..], a);
      }
    }
  }

  /** bytes.Replace with n = 1. */
  function ReplaceFirst(s: string, a: string, b: string): string {
    if a <= s then b + s[|a|..]
    else if s == [] then []
    else [s[0]] + ReplaceFirst(s[1..], a, b)
  }

  /** bytes.Count. */
  function Count(s: string, a: string): nat
    requires a != []
  {
    if s == [] then 0
    else if a <= s then 1 + Count(s[|a|..], a)
    else Count(s[1..], a)
  }

  // ------------------------------------------------------------ resolution

  /** The old and the new identity of the project. */
  datatype Names = Names(oldModule: string, newModule: string, oldName: string, newName: string,
                         oldSlug: string, newSlug: string, mod: GoMod)

  datatype PlanError =
    | NoGoMod | BadGoMod | BadModule | NoConfig | BadYaml | BadSlug | BlockedField
    | NoExample | NotRegular | NoSeed | BadSeed

  /** The head of `plan`: what the project is called and what it will be called. */
  function Resolve(p: Project, opts: Options, f: Formats): Result<Names, PlanError> {
    if GO_MOD_PATH !in p.files then Err(NoGoMod)
    else
      var mod := f.parseMod(p.files[GO_MOD_PATH].content);
      if mod.None? then Err(BadGoMod)
      else
        var newModule := if opts.module_ == "" then mod.value.module_ else opts.module_;
        if !f.validModule(newModule) then Err(BadModule)
        else if CONFIG_PATH !in p.files then Err(NoConfig)
        else
          var base := f.parse(p.files[CONFIG_PATH].content);
          if base.None? then Err(BadYaml)
          else
            var oldSlug, oldName := Get(base.value, ["app", "slug"]), Get(base.value, ["app", "name"]);
            var newName := if opts.name == "" then oldName else opts.name;
            var newSlug :=
              if opts.slug != "" then opts.slug
              else if newName != oldName then Normalize(newName)
              else oldSlug;
            if !PlanAccepts(newSlug) then Err(BadSlug)
            else Ok(Names(mod.value.module_, newModule, oldName, newName, oldSlug, newSlug, mod.value))
  }

  // --------------------------------------------------------------- one file

  predicate SkippedDir(name: string) {
    (name != "" && name[0] == '.') || name == "tmp" || name == "var" || name == "vendor" || name == "node_modules"
  }

  /** The files the directory walk looks at. */
  predicate Walked(path: FilePath) {
    && path != []
    && (forall i | 0 <= i < |path| - 1 :: !SkippedDir(path[i]))
    && var name := path[|path| - 1];
       (name == "go.mod" || HasSuffix(name, ".go") || HasSuffix(name, ".md") || HasSuffix(name, ".yaml") || HasSuffix(name, ".yml"))
  }

  predicate Renames(n: Names) {
    n.newSlug != n.oldSlug || n.newName != n.oldName
  }

  predicate IsDocument(path: FilePath) {
    (|path| > 1 && path[0] == "configs" && HasSuffix(path[|path| - 1], ".yaml")) || path == COMPOSE_PATH
  }

  /** The rename inside one YAML document. */
  function RenameDocument(t: Tree, n: Names, path: FilePath): Outcome {
    var o :=
      if path == COMPOSE_PATH then
        var first := RenameValue(t, n.oldSlug, n.newSlug, ["name"]);
        if !first.ok then first
        else RenameValue(first.tree, n.oldSlug, n.newSlug, ["services", "postgres", "environment", "POSTGRES_DB"])
      else
        RenameConfig(t, n.oldSlug, n.newSlug);
    if !o.ok then o
    else if path == CONFIG_PATH then
      var named := Set(o.tree, n.newName, ["app", "name"]);
      if named.Some? then Outcome(named.value, true) else Outcome(o.tree, false)
    else o
  }

  /** The new contents of one walked file. */
  function FileAfter(n: Names, f: Formats, path: FilePath, before: string): Result<string, PlanError> {
    var name := if path == [] then "" else path[|path| - 1];
    var moved :=
      if path == GO_MOD_PATH then f.formatMod(n.mod.(module_ := n.newModule))
      else if HasSuffix(name, ".go") || HasSuffix(name, ".md") then ReplaceAll(before, n.oldModule + "/", n.newModule + "/")
      else before;
    if Renames(n) && IsDocument(path) then
      var t := f.parse(moved);
      if t.None? then Err(BadYaml)
      else
        var o := RenameDocument(t.value, n, path);
        if o.ok then Ok(f.marshal(o.tree)) else Err(BlockedField)
    else if path == README_PATH && n.newName != n.oldName then
      Ok(ReplaceFirst(moved, "# " + n.oldName + "\n", "# " + n.newName + "\n"))
    else
      Ok(moved)
  }

  function Editor(n: Names, f: Formats): Edit {
    (path, before) => FileAfter(n, f, path, before)
  }

  type Edit = (FilePath, string) -> Result<string, PlanError>

  /** The changes of the walk over `order`, where `edit` gives the new contents of each file. */
  function WalkChanges(edit: Edit, files: map<FilePath, File>, order: seq<FilePath>): Result<seq<Change>, PlanError>
    requires forall q | q in order :: q in files
  {
    if order == [] then Ok([])
    else
      var init := WalkChanges(edit, files, order[..|order| - 1]);
      if init.Err? then init
      else
        var path := order[|order| - 1];
        assert path in order;
        var before := files[path];
        var after := edit(path, before.content);
        if after.Err? then Err(after.error)
        else if after.value == before.content then init
        else Ok(init.value + [Change(path, Some(before.content), after.value, before.mode)])
  }

  // --------------------------------------------------------- the local files

  function LocalChange(p: Project, n: Names, f: Formats, secrets: Secrets): Result<seq<Change>, PlanError> {
    if LOCAL_PATH in p.files then Ok([])
    else if LOCAL_PATH in p.special then Err(NotRegular)
    else if EXAMPLE_PATH !in p.files then Err(NoExample)
    else
      var t := f.parse(p.files[EXAMPLE_PATH].content);
      if t.None? then Err(BadYaml)
      else
        var o := RenameConfig(t.value, n.oldSlug, n.newSlug);
        if !o.ok then Err(BlockedField)
        else
          var filled := Set(o.tree, secrets.jwt, ["auth", "jwt", "secret"]);
          if filled.None? then Err(BlockedField)
          else Ok([Change(LOCAL_PATH, None, f.marshal(filled.value), LOCAL_MODE)])
  }

  function SeedChange(p: Project, secrets: Secrets): Result<seq<Change>, PlanError> {
    if LOCAL_SEED_PATH in p.files then Ok([])
    else if LOCAL_SEED_PATH in p.special then Err(NotRegular)
    else if SEED_PATH !in p.files then Err(NoSeed)
    else if Count(p.files[SEED_PATH].content, PLACEHOLDER) != 1 then Err(BadSeed)
    else Ok([Change(LOCAL_SEED_PATH, None, ReplaceFirst(p.files[SEED_PATH].content, PLACEHOLDER, secrets.hash), LOCAL_MODE)])
  }

  /** The planned changes, and the password to show, empty when the seed already exists. */
  datatype Planning = Planning(changes: seq<Change>, password: string)

  function Assemble(walked: Result<seq<Change>, PlanError>, local: Result<seq<Change>, PlanError>,
      seed: Result<seq<Change>, PlanError>, password: string): Result<Planning, PlanError>
  {
    if walked.Err? then Err(walked.error)
    else if local.Err? then Err(local.error)
    else if seed.Err? then Err(seed.error)
    else Ok(Planning(walked.value + (local.value + seed.value), if seed.value == [] then "" else password))
  }

  /** The plan once the names are known. */
  function PlanWith(p: Project, order: seq<FilePath>, n: Names, f: Formats, secrets: Secrets): Result<Planning, PlanError>
    requires forall q | q in order :: q in p.files
  {
    Assemble(WalkChanges(Editor(n, f), p.files, order), LocalChange(p, n, f, secrets), SeedChange(p, secrets), secrets.password)
  }

  function PlanOf(p: Project, order: seq<FilePath>, opts: Options, f: Formats, secrets: Secrets): Result<Planning, PlanError>
    requires forall q | q in order :: q in p.files
  {
    var names := Resolve(p, opts, f);
    if names.Err? then Err(names.error) else PlanWith(p, order, names.value, f, secrets)
  }

  // ------------------------------------------------------- what a plan touches

  ghost predicate Touches(changes: seq<Change>, q: FilePath) {
    exists c :: c in changes && c.path == q
  }

  /** A change is planned for every listed file that the edit would alter, and for each local file that is absent. */
  predicate Proposed(p: Project, order: seq<FilePath>, n: Names, f: Formats, q: FilePath) {
    || (q in order && q in p.files && FileAfter(n, f, q, p.files[q].content) != Ok(p.files[q].content))
    || (q !in p.files && (q == LOCAL_PATH || q == LOCAL_SEED_PATH))
  }

  /** The directory walk: its callback appends a change for every file that differs. */
  method Walk(edit: Edit, files: map<FilePath, File>, order: seq<FilePath>) returns (r: Result<seq<Change>, PlanError>)
    requires forall q | q in order :: q in files
    ensures r == WalkChanges(edit, files, order)
  {
    var changes: seq<Change> := [];
    for i := 0 to |order|
      invariant WalkChanges(edit, files, order[..i]) == Ok(changes)
    {
      var path := order[i];
      assert order[..i + 1][..i] == order[..i];
      var before := files[path];
      var after := edit(path, before.content);
      if after.Err? {
        WalkErrStays(edit, files, order, i + 1);
        return Err(after.error);
      }
      if after.value != before.content {
        changes := changes + [Change(path, Some(before.content), after.value, before.mode)];
      }
    }
    assert order[..|order|] == order;
    return Ok(changes);
  }

  lemma {:induction false} WalkErrStays(edit: Edit, files: map<FilePath, File>, order: seq<FilePath>, i: nat)
    requires forall q | q in order :: q in files
    requires i <= |order| && WalkChanges(edit, files, order[..i]).Err?
    ensures WalkChanges(edit, files, order) == WalkChanges(edit, files, order[..i])
    decreases |order|
  {
    if i < |order| {
      assert order[..|order| - 1][..i] == order[..i];
      WalkErrStays(edit, files, order[..|order| - 1], i);
    } else {
      assert order[..i] == order;
    }
  }

  // ------------------------------------------------- the plan fits the disk

  ghost predicate NoRepeats(order: seq<FilePath>) {
    forall i, j | 0 <= i < j < |order| :: order[i] != order[j]
  }

  /** The walk proposes, for each listed file, the edited contents, and nothing when they are the same. */
  ghost predicate Edits(edit: Edit, files: map<FilePath, File>, order: seq<FilePath>, changes: seq<Change>) {
    && Planned(changes, files)
    && (forall c | c in changes ::
          && c.path in order && c.path in files && c.before.Some?
          && edit(c.path, files[c.path].content) == Ok(c.after) && c.after != files[c.path].content)
    && (forall q | q in order && q in files && (forall c | c in changes :: c.path != q) ::
          edit(q, files[q].content) == Ok(files[q].content))
  }

  lemma {:induction false} WalkMeans(edit: Edit, files: map<FilePath, File>, order: seq<FilePath>)
    requires forall q | q in order :: q in files
    requires NoRepeats(order) && WalkChanges(edit, files, order).Ok?
    ensures Edits(edit, files, order, WalkChanges(edit, files, order).value)
  {
    if order != [] {
      var init, path := order[..|order| - 1], order[|order| - 1];
      assert order == init + [path];
      WalkMeans(edit, files, init);
      assert path in order && path !in init;
      EditsStep(edit, files, init, WalkChanges(edit, files, init).value, path);
    }
  }

  lemma EditsStep(edit: Edit, files: map<FilePath, File>, order: seq<FilePath>, changes: seq<Change>, path: FilePath)
    requires Edits(edit, files, order, changes) && path !in order && path in files
    requires edit(path, files[path].content).Ok?
    ensures
      var before, after := files[path], edit(path, files[path].content).value;
      Edits(edit, files, order + [path],
        if after == before.content then changes else changes + [Change(path, Some(before.content), after, before.mode)])
  {
    var before, after := files[path], edit(path, files[path].content).value;
    var more := if after == before.content then changes else changes + [Change(path, Some(before.content), after, before.mode)];
    assert after != before.content ==> Change(path, Some(before.content), after, before.mode) in more;
    forall i | 0 <= i < |changes|
      ensures changes[i].path != path
    {
      assert changes[i] in changes;
    }
    forall q | q in order + [path] && q in files && (forall c | c in more :: c.path != q)
      ensures edit(q, files[q].content) == Ok(files[q].content)
    {
      assert forall c | c in changes :: c in more;
    }
  }

  /** A change that creates `path`, unless it exists. */
  ghost predicate Creates(p: Project, path: FilePath, changes: seq<Change>) {
    if path in p.files then changes == [] else |changes| == 1 && changes[0].path == path && changes[0].before == None
  }

  lemma LocalCreates(p: Project, n: Names, f: Formats, secrets: Secrets)
    requires LocalChange(p, n, f, secrets).Ok?
    ensures Creates(p, LOCAL_PATH, LocalChange(p, n, f, secrets).value)
  {
  }

  lemma SeedCreates(p: Project, secrets: Secrets)
    requires SeedChange(p, secrets).Ok?
    ensures Creates(p, LOCAL_SEED_PATH, SeedChange(p, secrets).value)
  {
  }

  /** The parts of a successful plan. */
  lemma PlanParts(p: Project, order: seq<FilePath>, n: Names, f: Formats, secrets: Secrets)
    returns (walked: seq<Change>, local: seq<Change>, seed: seq<Change>)
    requires forall q | q in order :: q in p.files
    requires PlanWith(p, order, n, f, secrets).Ok?
    ensures WalkChanges(Editor(n, f), p.files, order) == Ok(walked)
    ensures Creates(p, LOCAL_PATH, local) && Creates(p, LOCAL_SEED_PATH, seed)
    ensures PlanWith(p, order, n, f, secrets).value.changes == walked + (local + seed)
  {
    walked := WalkChanges(Editor(n, f), p.files, order).value;
    local, seed := LocalChange(p, n, f, secrets).value, SeedChange(p, secrets).value;
    LocalCreates(p, n, f, secrets);
    SeedCreates(p, secrets);
  }

  /** Every plan can be handed to `run`: its paths are distinct and its old contents are on disk. */
  lemma PlanFits(p: Project, order: seq<FilePath>, n: Names, f: Formats, secrets: Secrets)
    requires NoRepeats(order) && forall q | q in order :: q in p.files
    requires PlanWith(p, order, n, f, secrets).Ok?
    ensures Planned(PlanWith(p, order, n, f, secrets).value.changes, p.files)
    ensures Absent(PlanWith(p, order, n, f, secrets).value.changes, p.files)
  {
    var walked, local, seed := PlanParts(p, order, n, f, secrets);
    WalkMeans(Editor(n, f), p.files, order);
    AppendFits(p, walked, local, seed);
  }

  lemma AppendFits(p: Project, walked: seq<Change>, local: seq<Change>, seed: seq<Change>)
    requires Planned(walked, p.files) && forall c | c in walked :: c.path in p.files && c.before.Some?
    requires Creates(p, LOCAL_PATH, local) && Creates(p, LOCAL_SEED_PATH, seed)
    ensures Planned(walked + (local + seed), p.files) && Absent(walked + (local + seed), p.files)
  {
    var all := walked + (local + seed);
    assert |LOCAL_PATH| == 2 && |LOCAL_SEED_PATH| == 3;
    forall i | 0 <= i < |walked|
      ensures all[i] == walked[i] && walked[i].path in p.files && walked[i].before.Some?
    {
      assert walked[i] in walked;
    }
  }

  lemma WalkTouches(edit: Edit, files: map<FilePath, File>, order: seq<FilePath>, q: FilePath)
    requires NoRepeats(order) && (forall p | p in order :: p in files) && WalkChanges(edit, files, order).Ok?
    ensures Touches(WalkChanges(edit, files, order).value, q)
      <==> q in order && edit(q, files[q].content) != Ok(files[q].content)
  {
    WalkMeans(edit, files, order);
  }

  lemma TouchesAppend(a: seq<Change>, b: seq<Change>, q: FilePath)
    ensures Touches(a + b, q) <==> Touches(a, q) || Touches(b, q)
  {
    assert forall c :: c in a + b <==> c in a || c in b;
  }

  lemma CreatesTouches(p: Project, path: FilePath, changes: seq<Change>, q: FilePath)
    requires Creates(p, path, changes)
    ensures Touches(changes, q) <==> q == path && q !in p.files
  {
    if path !in p.files {
      assert changes[0] in changes;
    }
  }

  /** A plan proposes exactly the files whose edit alters them and the absent local files, in a form `run` accepts. */
  lemma PlanMeans(p: Project, order: seq<FilePath>, n: Names, f: Formats, secrets: Secrets)
    requires NoRepeats(order) && forall q | q in order :: q in p.files
    requires PlanWith(p, order, n, f, secrets).Ok?
    ensures Planned(PlanWith(p, order, n, f, secrets).value.changes, p.files)
    ensures Absent(PlanWith(p, order, n, f, secrets).value.changes, p.files)
    ensures forall q :: Touches(PlanWith(p, order, n, f, secrets).value.changes, q) <==> Proposed(p, order, n, f, q)
    ensures PlanWith(p, order, n, f, secrets).value.password == if LOCAL_SEED_PATH in p.files then "" else secrets.password
  {
    PlanFits(p, order, n, f, secrets);
    var walked, local, seed := PlanParts(p, order, n, f, secrets);
    forall q
      ensures Touches(walked + (local + seed), q) <==> Proposed(p, order, n, f, q)
    {
      PartsTouch(p, walked, local, seed, q);
      WalkTouches(Editor(n, f), p.files, order, q);
    }
    SeedCreates(p, secrets);
  }

  lemma PartsTouch(p: Project, walked: seq<Change>, local: seq<Change>, seed: seq<Change>, q: FilePath)
    requires Creates(p, LOCAL_PATH, local) && Creates(p, LOCAL_SEED_PATH, seed)
    ensures Touches(walked + (local + seed), q) <==>
      Touches(walked, q) || (q !in p.files && (q == LOCAL_PATH || q == LOCAL_SEED_PATH))
  {
    TouchesAppend(walked, local + seed, q);
    TouchesAppend(local, seed, q);
    CreatesTouches(p, LOCAL_PATH, local, q);
    CreatesTouches(p, LOCAL_SEED_PATH, seed, q);
  }

  // --------------------------------------------------- when a plan exists

  lemma {:induction false} WalkOkIff(edit: Edit, files: map<FilePath, File>, order: seq<FilePath>)
    requires forall q | q in order :: q in files
    ensures WalkChanges(edit, files, order).Ok? <==> forall q | q in order :: edit(q, files[q].content).Ok?
  {
    if order != [] {
      var init, path := order[..|order| - 1], order[|order| - 1];
      assert order == init + [path];
      WalkOkIff(edit, files, init);
    }
  }

  /** The local configuration exists, or can be made from the example. */
  predicate LocalReady(p: Project, n: Names, f: Formats, secrets: Secrets) {
    || LOCAL_PATH in p.files
    || (&& LOCAL_PATH !in p.special && EXAMPLE_PATH in p.files
        && f.parse(p.files[EXAMPLE_PATH].content).Some?
        && var o := RenameConfig(f.parse(p.files[EXAMPLE_PATH].content).value, n.oldSlug, n.newSlug);
           o.ok && Set(o.tree, secrets.jwt, ["auth", "jwt", "secret"]).Some?)
  }

  /** The local seed exists, or the seed holds its placeholder exactly once. */
  predicate SeedReady(p: Project) {
    || LOCAL_SEED_PATH in p.files
    || (&& LOCAL_SEED_PATH !in p.special && SEED_PATH in p.files
        && Count(p.files[SEED_PATH].content, PLACEHOLDER) == 1)
  }

  /** Once the names are known, planning fails only for a file that cannot be edited or a local file that
      cannot be made. */
  lemma PlanOkIff(p: Project, order: seq<FilePath>, n: Names, f: Formats, secrets: Secrets)
    requires forall q | q in order :: q in p.files
    ensures PlanWith(p, order, n, f, secrets).Ok? <==>
      && (forall q | q in order :: FileAfter(n, f, q, p.files[q].content).Ok?)
      && LocalReady(p, n, f, secrets) && SeedReady(p)
  {
    WalkOkIff(Editor(n, f), p.files, order);
    LocalOkIff(p, n, f, secrets);
    SeedOkIff(p, secrets);
  }

  lemma LocalOkIff(p: Project, n: Names, f: Formats, secrets: Secrets)
    ensures LocalChange(p, n, f, secrets).Ok? <==> LocalReady(p, n, f, secrets)
  {
  }

  lemma SeedOkIff(p: Project, secrets: Secrets)
    ensures SeedChange(p, secrets).Ok? <==> SeedReady(p)
  {
  }

  // ------------------------------------------------------------- idempotence

  /** The project after every planned change was written and nothing else was touched. */
  ghost predicate Applied(p: Project, changes: seq<Change>, p': Project) {
    p'.special == p.special && AllOrNothing(p.files, p'.files, changes, [])
  }

  /** Names that are already in place: a run with these changes nothing. */
  predicate Settled(n: Names) {
    n.oldModule == n.newModule && !Renames(n)
  }

  lemma SettledEditsNothing(n: Names, f: Formats, path: FilePath, before: string)
    requires Settled(n)
    requires path == GO_MOD_PATH ==> before == f.formatMod(n.mod.(module_ := n.newModule))
    ensures FileAfter(n, f, path, before) == Ok(before)
  {
    ReplaceAllSame(before, n.oldModule + "/");
  }

  lemma {:induction false} SettledWalk(n: Names, f: Formats, files: map<FilePath, File>, order: seq<FilePath>)
    requires Settled(n) && forall q | q in order :: q in files
    requires GO_MOD_PATH in files && files[GO_MOD_PATH].content == f.formatMod(n.mod.(module_ := n.newModule))
    ensures WalkChanges(Editor(n, f), files, order) == Ok([])
  {
    if order != [] {
      SettledWalk(n, f, files, order[..|order| - 1]);
      var path := order[|order| - 1];
      assert path in order;
      SettledEditsNothing(n, f, path, files[path].content);
    }
  }

  /** What a file listed by the walk contains afterwards: its edited contents, changed or not. */
  lemma WalkedContents(p: Project, order: seq<FilePath>, n: Names, f: Formats, changes: seq<Change>,
      rest: seq<Change>, p': Project, q: FilePath)
    requires NoRepeats(order) && (forall q | q in order :: q in p.files) && q in order
    requires WalkChanges(Editor(n, f), p.files, order) == Ok(changes)
    requires (forall c | c in rest :: c.path !in p.files) && Applied(p, changes + rest, p')
    ensures q in p'.files && FileAfter(n, f, q, p.files[q].content) == Ok(p'.files[q].content)
  {
    var all := changes + rest;
    WalkMeans(Editor(n, f), p.files, order);
    if c :| c in changes && c.path == q {
      var i :| 0 <= i < |changes| && changes[i] == c;
      assert all[i] == c && Written(p'.files, all[i]);
    } else {
      forall i | 0 <= i < |all|
        ensures all[i].path != q
      {
        assert i < |changes| ==> all[i] in changes;
        assert i >= |changes| ==> all[i] in rest;
      }
      assert Untouched(all, q) && Same(p.files, p'.files, q);
    }
  }

  /** A local file exists after the run, whether it did before or was created. */
  lemma LocalExists(p: Project, changes: seq<Change>, p': Project, path: FilePath, part: seq<Change>)
    requires Applied(p, changes, p') && Creates(p, path, part) && forall c | c in part :: c in changes
    ensures path in p'.files
  {
    if path in p.files {
      if i :| 0 <= i < |changes| && changes[i].path == path {
        assert Written(p'.files, changes[i]);
      } else {
        assert Untouched(changes, path) && Same(p.files, p'.files, path);
      }
    } else {
      assert part[0] in changes;
      var i :| 0 <= i < |changes| && changes[i] == part[0];
      assert Written(p'.files, changes[i]);
    }
  }

  /** The rewritten configuration carries the new slug and the new name. */
  lemma DocumentCarriesNames(t: Tree, n: Names)
    requires WellFormed(t) && RenameDocument(t, n, CONFIG_PATH).ok && '_' !in n.newSlug
    requires Get(t, ["app", "slug"]) == n.oldSlug
    ensures var t' := RenameDocument(t, n, CONFIG_PATH).tree;
      WellFormed(t') && Get(t', ["app", "slug"]) == n.newSlug && Get(t', ["app", "name"]) == n.newName
  {
    assert CONFIG_PATH != COMPOSE_PATH by {
      assert |CONFIG_PATH| == 2 && |COMPOSE_PATH| == 1;
    }
    var o := RenameConfig(t, n.oldSlug, n.newSlug);
    UnderscoreNeverFeeds(n.oldSlug, n.newSlug);
    RenameConfigSubstitutes(t, n.oldSlug, n.newSlug);
    assert CONFIG_PATHS[0] == ["app", "slug"];
    assert Get(o.tree, ["app", "slug"]) == n.newSlug;
    NameIsSet(o.tree, n.newName);
  }

  /** Setting app.name does not disturb app.slug. */
  lemma NameIsSet(t: Tree, name: string)
    requires WellFormed(t) && Set(t, name, ["app", "name"]).Some?
    ensures var t' := Set(t, name, ["app", "name"]).value;
      WellFormed(t') && Get(t', ["app", "name"]) == name && Get(t', ["app", "slug"]) == Get(t, ["app", "slug"])
  {
    WellFormedIsEven(t);
    GetAfterSet(t, name, ["app", "name"]);
    SetKeepsShape(t, name, ["app", "name"]);
    assert "name"[0] != "slug"[0];
    assert ["app", "name"][1..] == ["name"] && ["app", "slug"][1..] == ["slug"];
    WellFormedSpares(t, ["app", "name"]);
    SetFrame(t, name, ["app", "name"], ["app", "slug"]);
  }

  /** What the walk makes of the configuration. */
  lemma ConfigEdited(n: Names, f: Formats, before: string, after: string)
    requires FileAfter(n, f, CONFIG_PATH, before) == Ok(after) && f.parse(before).Some?
    ensures var o := RenameDocument(f.parse(before).value, n, CONFIG_PATH);
      if Renames(n) then o.ok && after == f.marshal(o.tree) else after == before
  {
    assert |CONFIG_PATH| == 2 && |GO_MOD_PATH| == 1 && |README_PATH| == 1;
    YamlIsNotSource("config.yaml");
  }

  /** After the run the configuration names the project as resolved. */
  lemma ConfigAfterRun(n: Names, f: Formats, before: string, after: string)
    requires f.parse(before).Some? && LawfulConfig(f, f.parse(before).value, n) && '_' !in n.newSlug
    requires Get(f.parse(before).value, ["app", "slug"]) == n.oldSlug
    requires Get(f.parse(before).value, ["app", "name"]) == n.oldName
    requires FileAfter(n, f, CONFIG_PATH, before) == Ok(after)
    ensures f.parse(after).Some?
    ensures Get(f.parse(after).value, ["app", "slug"]) == n.newSlug
    ensures Get(f.parse(after).value, ["app", "name"]) == n.newName
  {
    ConfigEdited(n, f, before, after);
    if Renames(n) {
      DocumentCarriesNames(f.parse(before).value, n);
    }
  }

  lemma YamlIsNotSource(name: string)
    requires name == "config.yaml"
    ensures !HasSuffix(name, ".go") && !HasSuffix(name, ".md") && HasSuffix(name, ".yaml")
  {
    assert name[|name| - 1] == 'l' && ".go"[2] == 'o' && ".md"[2] == 'd';
    assert name[|name| - 5..] == ".yaml";
  }

  /** The parts of a successful resolution. */
  lemma ResolveMeans(p: Project, opts: Options, f: Formats, n: Names)
    requires Resolve(p, opts, f) == Ok(n)
    ensures GO_MOD_PATH in p.files && f.parseMod(p.files[GO_MOD_PATH].content) == Some(n.mod)
    ensures CONFIG_PATH in p.files && f.parse(p.files[CONFIG_PATH].content).Some?
    ensures Get(f.parse(p.files[CONFIG_PATH].content).value, ["app", "slug"]) == n.oldSlug
    ensures Get(f.parse(p.files[CONFIG_PATH].content).value, ["app", "name"]) == n.oldName
    ensures n.oldModule == n.mod.module_ && n.newModule == (if opts.module_ == "" then n.oldModule else opts.module_)
    ensures n.newName == (if opts.name == "" then n.oldName else opts.name)
    ensures opts.slug != "" ==> n.newSlug == opts.slug
    ensures opts.slug == "" ==> n.newSlug == if n.newName != n.oldName then Normalize(n.newName) else n.oldSlug
    ensures f.validModule(n.newModule) && PlanAccepts(n.newSlug)
  {
  }

  /** The names of a second run with the same options: old and new coincide. */
  function SecondNames(n: Names): Names {
    Names(n.newModule, n.newModule, n.newName, n.newName, n.newSlug, n.newSlug, n.mod.(module_ := n.newModule))
  }

  lemma ResolveAgain(p: Project, p': Project, opts: Options, f: Formats, n: Names)
    requires Resolve(p, opts, f) == Ok(n) && Lawful(f, p, n)
    requires GO_MOD_PATH in p'.files && p'.files[GO_MOD_PATH].content == f.formatMod(n.mod.(module_ := n.newModule))
    requires CONFIG_PATH in p'.files && f.parse(p'.files[CONFIG_PATH].content).Some?
    requires Get(f.parse(p'.files[CONFIG_PATH].content).value, ["app", "slug"]) == n.newSlug
    requires Get(f.parse(p'.files[CONFIG_PATH].content).value, ["app", "name"]) == n.newName
    ensures Resolve(p', opts, f) == Ok(SecondNames(n))
  {
    ResolveMeans(p, opts, f, n);
  }

  lemma WalkedSources()
    ensures Walked(GO_MOD_PATH) && Walked(CONFIG_PATH)
  {
    YamlIsNotSource("config.yaml");
    assert CONFIG_PATH[0] == "configs" && "configs"[0] == 'c';
    assert |"configs"| != |"tmp"| && "configs"[0] != "var"[0] && "configs"[0] != "vendor"[0] && "configs"[0] != "node_modules"[0];
  }

  /** The walk has settled the sources of the names. */
  lemma SourcesAfterRun(p: Project, order: seq<FilePath>, opts: Options, f: Formats, n: Names, walked: seq<Change>,
      rest: seq<Change>, p': Project)
    requires Resolve(p, opts, f) == Ok(n) && Lawful(f, p, n)
    requires NoRepeats(order) && (forall q | q in order :: q in p.files) && GO_MOD_PATH in order && CONFIG_PATH in order
    requires WalkChanges(Editor(n, f), p.files, order) == Ok(walked)
    requires (forall c | c in rest :: c.path !in p.files) && Applied(p, walked + rest, p')
    ensures Resolve(p', opts, f) == Ok(SecondNames(n))
    ensures GO_MOD_PATH in p'.files && p'.files[GO_MOD_PATH].content == f.formatMod(n.mod.(module_ := n.newModule))
  {
    ResolveMeans(p, opts, f, n);
    WalkedContents(p, order, n, f, walked, rest, p', GO_MOD_PATH);
    WalkedContents(p, order, n, f, walked, rest, p', CONFIG_PATH);
    GoModAfter(n, f, p.files[GO_MOD_PATH].content);
    AcceptedIsSafe(n.newSlug);
    ConfigAfterRun(n, f, p.files[CONFIG_PATH].content, p'.files[CONFIG_PATH].content);
    ResolveAgain(p, p', opts, f, n);
  }

  lemma GoModAfter(n: Names, f: Formats, before: string)
    ensures FileAfter(n, f, GO_MOD_PATH, before) == Ok(f.formatMod(n.mod.(module_ := n.newModule)))
  {
    assert |GO_MOD_PATH| == 1 && "go.mod"[0] != "docker-compose.yml"[0] && "go.mod"[0] != "README.md"[0];
  }

  /** A second run with settled names and both local files in place plans nothing. */
  lemma SettledPlan(p: Project, order: seq<FilePath>, f: Formats, secrets: Secrets, n: Names)
    requires Settled(n) && forall q | q in order :: q in p.files
    requires GO_MOD_PATH in p.files && p.files[GO_MOD_PATH].content == f.formatMod(n.mod.(module_ := n.newModule))
    requires LOCAL_PATH in p.files && LOCAL_SEED_PATH in p.files
    ensures PlanWith(p, order, n, f, secrets) == Ok(Planning([], ""))
  {
    SettledWalk(n, f, p.files, order);
    assert LocalChange(p, n, f, secrets) == Ok([]);
    assert SeedChange(p, secrets) == Ok([]);
    var nothing: seq<Change> := [];
    assert nothing + (nothing + nothing) == nothing;
  }

  /** Both local files exist after the run; the rest of its changes come from the walk. */
  lemma LocalsAfterRun(p: Project, order: seq<FilePath>, f: Formats, n: Names, secrets: Secrets, p': Project)
    returns (walked: seq<Change>, rest: seq<Change>)
    requires (forall q | q in order :: q in p.files) && PlanWith(p, order, n, f, secrets).Ok?
    requires Applied(p, PlanWith(p, order, n, f, secrets).value.changes, p')
    ensures LOCAL_PATH in p'.files && LOCAL_SEED_PATH in p'.files
    ensures WalkChanges(Editor(n, f), p.files, order) == Ok(walked)
    ensures (forall c | c in rest :: c.path !in p.files) && Applied(p, walked + rest, p')
  {
    var local, seed;
    walked, local, seed := PlanParts(p, order, n, f, secrets);
    rest := local + seed;
    PartsExist(p, walked, local, seed, p');
  }

  lemma PartsExist(p: Project, walked: seq<Change>, local: seq<Change>, seed: seq<Change>, p': Project)
    requires Creates(p, LOCAL_PATH, local) && Creates(p, LOCAL_SEED_PATH, seed)
    requires Applied(p, walked + (local + seed), p')
    ensures LOCAL_PATH in p'.files && LOCAL_SEED_PATH in p'.files
    ensures forall c | c in local + seed :: c.path !in p.files
  {
    LocalExists(p, walked + (local + seed), p', LOCAL_PATH, local);
    LocalExists(p, walked + (local + seed), p', LOCAL_SEED_PATH, seed);
  }

  /** Setup is idempotent: planning again with the same options on the project that a successful run
      left behind yields no change and no new password, whatever the new random values. */
  lemma SetupIdempotent(p: Project, order: seq<FilePath>, opts: Options, f: Formats, secrets: Secrets,
      p': Project, order': seq<FilePath>, secrets': Secrets)
    requires NoRepeats(order) && forall q :: q in order <==> q in p.files && Walked(q)
    requires PlanOf(p, order, opts, f, secrets).Ok? && Lawful(f, p, Resolve(p, opts, f).value)
    requires Applied(p, PlanOf(p, order, opts, f, secrets).value.changes, p')
    requires forall q | q in order' :: q in p'.files
    ensures PlanOf(p', order', opts, f, secrets') == Ok(Planning([], ""))
  {
    var n := Resolve(p, opts, f).value;
    var walked, rest := LocalsAfterRun(p, order, f, n, secrets, p');
    ResolveMeans(p, opts, f, n);
    WalkedSources();
    SourcesAfterRun(p, order, opts, f, n, walked, rest, p');
    SettledPlan(p', order', f, secrets', SecondNames(n));
  }
}

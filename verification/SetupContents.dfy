/**
 What setup writes.  The new contents of every planned file are described by what a reader finds
 in them, without the functions that produce them: text by its parts between the occurrences that
 are replaced, documents by the values read at their paths.
 */
module SetupContents {
  import opened Prelude
  import opened YamlTree
  import opened Rename
  import opened Slug
  import opened SetupRun
  import opened SetupPlan

  // ------------------------------------------------------------------- text

  function Join(parts: seq<string>, sep: string): string
    requires parts != []
  {
    if |parts| == 1 then parts[0] else parts[0] + (sep + Join(parts[1..], sep))
  }

  /** `a` does not occur in `s`. */
  ghost predicate Without(s: string, a: string) {
    forall i | 0 <= i <= |s| :: !(a <= s[i..])
  }

  /** `a` does not occur in `s` before position `n`. */
  ghost predicate NotBefore(s: string, a: string, n: nat)
    requires n <= |s|
  {
    forall i | 0 <= i < n :: !(a <= s[i..])
  }

  /** The parts of a text between the occurrences of `a`, taken from the left and not overlapping. */
  ghost predicate SplitBy(parts: seq<string>, a: string) {
    && parts != []
    && if |parts| == 1 then Without(parts[0], a)
       else NotBefore(Join(parts, a), a, |parts[0]|) && SplitBy(parts[1..], a)
  }

  lemma NotBeforeTail(s: string, a: string, n: nat)
    requires 0 < n <= |s| && NotBefore(s, a, n)
    ensures !(a <= s) && NotBefore(s[1..], a, n - 1)
  {
    assert s[0..] == s;
    forall i | 0 <= i < n - 1
      ensures !(a <= s[1..][i..])
    {
      assert s[1..][i..] == s[i + 1..];
    }
  }

  lemma TailOfSum(pre: string, rest: string)
    requires pre != []
    ensures (pre + rest)[1..] == pre[1..] + rest && (pre + rest)[0] == pre[0] && [pre[0]] + pre[1..] == pre
  {
  }

  lemma {:induction false} ReplaceFrom(pre: string, a: string, post: string, b: string)
    requires a != [] && NotBefore(pre + (a + post), a, |pre|)
    ensures ReplaceAll(pre + (a + post), a, b) == pre + (b + ReplaceAll(post, a, b))
    ensures ReplaceFirst(pre + (a + post), a, b) == pre + (b + post)
    ensures Count(pre + (a + post), a) == 1 + Count(post, a)
  {
    if pre == [] {
      assert pre + (a + post) == a + post && (a + post)[|a|..] == post;
    } else {
      TailOfSum(pre, a + post);
      NotBeforeTail(pre + (a + post), a, |pre|);
      ReplaceFrom(pre[1..], a, post, b);
      Cons(pre, b + ReplaceAll(post, a, b));
      Cons(pre, b + post);
    }
  }

  lemma Cons(pre: string, rest: string)
    requires pre != []
    ensures [pre[0]] + (pre[1..] + rest) == pre + rest
  {
  }

  lemma {:induction false} ReplaceNowhere(s: string, a: string, b: string)
    requires a != [] && Without(s, a)
    ensures ReplaceAll(s, a, b) == s && ReplaceFirst(s, a, b) == s && Count(s, a) == 0
  {
    assert s[0..] == s;
    if s != [] {
      forall i | 0 <= i <= |s[1..]|
        ensures !(a <= s[1..][i..])
      {
        assert s[1..][i..] == s[i + 1..];
      }
      ReplaceNowhere(s[1..], a, b);
    }
  }

  /** bytes.ReplaceAll keeps the parts and joins them with the replacement. */
  lemma {:induction false} ReplaceAllMeans(parts: seq<string>, a: string, b: string)
    requires a != [] && SplitBy(parts, a)
    ensures ReplaceAll(Join(parts, a), a, b) == Join(parts, b) && Count(Join(parts, a), a) == |parts| - 1
    decreases |parts|
  {
    if |parts| == 1 {
      ReplaceNowhere(parts[0], a, b);
    } else {
      ReplaceFrom(parts[0], a, Join(parts[1..], a), b);
      ReplaceAllMeans(parts[1..], a, b);
    }
  }

  /** Every text has such parts. */
  lemma {:induction false} SplitExists(s: string, a: string) returns (parts: seq<string>)
    requires a != []
    ensures SplitBy(parts, a) && Join(parts, a) == s
    decreases |s|
  {
    if a <= s {
      var rest := SplitExists(s[|a|..], a);
      parts := [[]] + rest;
      assert parts[1..] == rest && [] + (a + s[|a|..]) == s;
    } else if s == [] {
      parts := [s];
      assert s[0..] == s;
    } else {
      var rest := SplitExists(s[1..], a);
      parts := rest[0 := [s[0]] + rest[0]];
      LongerHead(s, a, rest, parts);
    }
  }

  lemma LongerHead(s: string, a: string, rest: seq<string>, parts: seq<string>)
    requires s != [] && a != [] && !(a <= s) && SplitBy(rest, a) && Join(rest, a) == s[1..]
    requires parts == rest[0 := [s[0]] + rest[0]]
    ensures SplitBy(parts, a) && Join(parts, a) == s
  {
    assert parts[1..] == rest[1..];
    assert [s[0]] + s[1..] == s;
    if |rest| > 1 {
      assert Join(parts, a) == [s[0]] + Join(rest, a);
    }
    forall i | 0 <= i <= |s| && (|parts| == 1 || i < |parts[0]|)
      ensures !(a <= s[i..])
    {
      if i > 0 {
        assert s[i..] == s[1..][i - 1..];
      } else {
        assert s[0..] == s;
      }
    }
  }

  /** `after` is `before` with `b` in place of every `a`. */
  ghost predicate AllReplaced(before: string, a: string, b: string, after: string) {
    exists parts :: SplitBy(parts, a) && before == Join(parts, a) && after == Join(parts, b)
  }

  /** `after` is `before` with `b` in place of the first `a`, if there is one. */
  ghost predicate FirstReplaced(before: string, a: string, b: string, after: string) {
    || (Without(before, a) && after == before)
    || exists pre, post :: before == pre + (a + post) && NotBefore(before, a, |pre|) && after == pre + (b + post)
  }

  lemma AllAreReplaced(s: string, a: string, b: string)
    requires a != []
    ensures AllReplaced(s, a, b, ReplaceAll(s, a, b))
  {
    var parts := SplitExists(s, a);
    ReplaceAllMeans(parts, a, b);
  }

  lemma FirstIsReplaced(s: string, a: string, b: string)
    requires a != []
    ensures FirstReplaced(s, a, b, ReplaceFirst(s, a, b))
  {
    var parts := SplitExists(s, a);
    if |parts| == 1 {
      ReplaceNowhere(s, a, b);
    } else {
      ReplaceFrom(parts[0], a, Join(parts[1..], a), b);
    }
  }

  // --------------------------------------------------------------- the seed

  /** The seed with the hash in its one placeholder. */
  ghost predicate SeedFilled(seed: string, hash: string, after: string) {
    exists pre, post :: seed == pre + (PLACEHOLDER + post) && NotBefore(seed, PLACEHOLDER, |pre|)
      && Without(post, PLACEHOLDER) && after == pre + (hash + post)
  }

  lemma SeedIsFilled(seed: string, hash: string)
    requires Count(seed, PLACEHOLDER) == 1
    ensures SeedFilled(seed, hash, ReplaceFirst(seed, PLACEHOLDER, hash))
  {
    var parts := SplitExists(seed, PLACEHOLDER);
    ReplaceAllMeans(parts, PLACEHOLDER, hash);
    assert |parts| == 2 && parts[1..] == [parts[1]];
    ReplaceFrom(parts[0], PLACEHOLDER, parts[1], hash);
  }

  // ---------------------------------------------------------- the documents

  /** The value is the old slug, or that with `_dev` or `_test`, and carries the new slug instead; any other stays. */
  ghost predicate RenamedAt(t: Tree, t': Tree, old_: string, new_: string, q: Path) {
    Get(t', q) == Subst(Get(t, q), old_, new_)
  }

  ghost predicate RenamedAtFour(t: Tree, t': Tree, old_: string, new_: string) {
    && RenamedAt(t, t', old_, new_, ["app", "slug"])
    && RenamedAt(t, t', old_, new_, ["database", "dbname"])
    && RenamedAt(t, t', old_, new_, ["database", "application_name"])
    && RenamedAt(t, t', old_, new_, ["auth", "jwt", "issuer"])
  }

  /** Nothing readable outside these paths has changed. */
  ghost predicate SameOutside(t: Tree, t': Tree, paths: seq<Path>) {
    forall q | UnrelatedToAll(paths, q) :: Get(t', q) == Get(t, q)
  }

  lemma FourRenamed(t: Tree, old_: string, new_: string)
    requires WellFormed(t) && '_' !in new_ && RenameConfig(t, old_, new_).ok
    ensures var t' := RenameConfig(t, old_, new_).tree;
      WellFormed(t') && RenamedAtFour(t, t', old_, new_) && SameOutside(t, t', CONFIG_PATHS)
  {
    UnderscoreNeverFeeds(old_, new_);
    RenameConfigSubstitutes(t, old_, new_);
    assert CONFIG_PATHS[0] == ["app", "slug"] && CONFIG_PATHS[1] == ["database", "dbname"];
    assert CONFIG_PATHS[2] == ["database", "application_name"] && CONFIG_PATHS[3] == ["auth", "jwt", "issuer"];
  }

  /** Setting one more path: it reads the value, and every unrelated path reads as before. */
  lemma SetReads(t: Tree, mid: Tree, v: string, paths: seq<Path>, path: Path)
    requires WellFormed(mid) && Set(mid, v, path).Some? && SameOutside(t, mid, paths)
    ensures var t' := Set(mid, v, path).value;
      && WellFormed(t') && Get(t', path) == v && SameOutside(t, t', paths + [path])
      && forall q | Unrelated(path, q) :: Get(t', q) == Get(mid, q)
  {
    WellFormedSpares(mid, path);
    SetKeepsShape(mid, v, path);
    GetAfterSet(mid, v, path);
    FrameIff(mid, v, path);
    forall q | UnrelatedToAll(paths + [path], q)
      ensures Get(Set(mid, v, path).value, q) == Get(t, q)
    {
      OutsideSum(paths, path, q);
    }
  }

  lemma OutsideSum(paths: seq<Path>, path: Path, q: Path)
    requires UnrelatedToAll(paths + [path], q)
    ensures UnrelatedToAll(paths, q) && Unrelated(path, q)
  {
    assert (paths + [path])[|paths|] == path;
    assert forall i | 0 <= i < |paths| :: (paths + [path])[i] == paths[i];
  }

  /** The four paths do not lie on this one. */
  predicate OffTheFour(path: Path) {
    && Unrelated(path, ["app", "slug"]) && Unrelated(path, ["database", "dbname"])
    && Unrelated(path, ["database", "application_name"]) && Unrelated(path, ["auth", "jwt", "issuer"])
  }

  lemma FourKept(t: Tree, mid: Tree, t': Tree, old_: string, new_: string, path: Path)
    requires RenamedAtFour(t, mid, old_, new_) && OffTheFour(path)
    requires forall q | Unrelated(path, q) :: Get(t', q) == Get(mid, q)
    ensures RenamedAtFour(t, t', old_, new_)
  {
    Kept(t, mid, t', old_, new_, path, ["app", "slug"]);
    Kept(t, mid, t', old_, new_, path, ["database", "dbname"]);
    Kept(t, mid, t', old_, new_, path, ["database", "application_name"]);
    Kept(t, mid, t', old_, new_, path, ["auth", "jwt", "issuer"]);
  }

  lemma Kept(t: Tree, mid: Tree, t': Tree, old_: string, new_: string, path: Path, q: Path)
    requires RenamedAt(t, mid, old_, new_, q) && Unrelated(path, q)
    requires forall r | Unrelated(path, r) :: Get(t', r) == Get(mid, r)
    ensures RenamedAt(t, t', old_, new_, q)
  {
  }

  /** The local configuration: the example under the new slug, with the secret. */
  ghost predicate LocalFilled(t: Tree, t': Tree, n: Names, jwt: string) {
    && Get(t', ["auth", "jwt", "secret"]) == jwt
    && RenamedAtFour(t, t', n.oldSlug, n.newSlug)
    && SameOutside(t, t', CONFIG_PATHS + [["auth", "jwt", "secret"]])
  }

  lemma SecretUnrelated()
    ensures OffTheFour(["auth", "jwt", "secret"])
  {
    assert "auth"[1] != "app"[1] && "auth"[0] != "database"[0] && "secret"[0] != "issuer"[0];
    var secret, issuer := ["auth", "jwt", "secret"], ["auth", "jwt", "issuer"];
    assert secret[1..] == ["jwt", "secret"] && issuer[1..] == ["jwt", "issuer"];
    assert secret[1..][1..] == ["secret"] && issuer[1..][1..] == ["issuer"];
    assert Unrelated(secret[1..][1..], issuer[1..][1..]) && Unrelated(secret[1..], issuer[1..]);
  }

  lemma LocalIsFilled(t: Tree, mid: Tree, n: Names, jwt: string, path: Path)
    requires WellFormed(mid) && RenamedAtFour(t, mid, n.oldSlug, n.newSlug) && SameOutside(t, mid, CONFIG_PATHS)
    requires path == ["auth", "jwt", "secret"] && Set(mid, jwt, path).Some?
    ensures LocalFilled(t, Set(mid, jwt, path).value, n, jwt)
  {
    SetReads(t, mid, jwt, CONFIG_PATHS, path);
    SecretUnrelated();
    FourKept(t, mid, Set(mid, jwt, path).value, n.oldSlug, n.newSlug, path);
  }

  /** A configuration document: the four paths renamed; in config.yaml the name as well; the rest as before. */
  ghost predicate ConfigRenamed(t: Tree, t': Tree, n: Names, main: bool) {
    && RenamedAtFour(t, t', n.oldSlug, n.newSlug)
    && (main ==> Get(t', ["app", "name"]) == n.newName)
    && SameOutside(t, t', if main then CONFIG_PATHS + [["app", "name"]] else CONFIG_PATHS)
  }

  lemma NameUnrelated()
    ensures OffTheFour(["app", "name"])
  {
    assert "name"[0] != "slug"[0] && "app"[0] != "database"[0] && "app"[1] != "auth"[1];
    assert ["app", "name"][1..] == ["name"] && ["app", "slug"][1..] == ["slug"];
  }

  lemma MainIsRenamed(t: Tree, mid: Tree, n: Names, path: Path)
    requires WellFormed(mid) && RenamedAtFour(t, mid, n.oldSlug, n.newSlug) && SameOutside(t, mid, CONFIG_PATHS)
    requires path == ["app", "name"] && Set(mid, n.newName, path).Some?
    ensures ConfigRenamed(t, Set(mid, n.newName, path).value, n, true)
  {
    SetReads(t, mid, n.newName, CONFIG_PATHS, path);
    NameUnrelated();
    FourKept(t, mid, Set(mid, n.newName, path).value, n.oldSlug, n.newSlug, path);
  }

  lemma ConfigIsRenamed(t: Tree, n: Names, path: FilePath)
    requires WellFormed(t) && '_' !in n.newSlug && path != COMPOSE_PATH && RenameDocument(t, n, path).ok
    ensures ConfigRenamed(t, RenameDocument(t, n, path).tree, n, path == CONFIG_PATH)
  {
    FourRenamed(t, n.oldSlug, n.newSlug);
    if path == CONFIG_PATH {
      MainIsRenamed(t, RenameConfig(t, n.oldSlug, n.newSlug).tree, n, ["app", "name"]);
    }
  }

  const POSTGRES_DB: Path := ["services", "postgres", "environment", "POSTGRES_DB"]

  function Swapped(v: string, from: string, to: string): string {
    if v == from then to else v
  }

  /** The compose document: its name and its database, where they are the old slug. */
  ghost predicate ComposeRenamed(t: Tree, t': Tree, n: Names) {
    && Get(t', ["name"]) == Swapped(Get(t, ["name"]), n.oldSlug, n.newSlug)
    && Get(t', POSTGRES_DB) == Swapped(Get(t, POSTGRES_DB), n.oldSlug, n.newSlug)
    && SameOutside(t, t', [["name"], POSTGRES_DB])
  }

  lemma TwoRenamed(t: Tree, mid: Tree, old_: string, new_: string, p: Path, q: Path)
    requires WellFormed(t) && RenameValue(t, old_, new_, p) == Outcome(mid, true) && RenameValue(mid, old_, new_, q).ok
    requires Unrelated(p, q) && Unrelated(q, p)
    ensures var t' := RenameValue(mid, old_, new_, q).tree;
      && Get(t', p) == Swapped(Get(t, p), old_, new_) && Get(t', q) == Swapped(Get(t, q), old_, new_)
      && SameOutside(t, t', [p, q])
  {
    RenameValueMeans(t, old_, new_, p);
    RenameValueMeans(mid, old_, new_, q);
    forall r | UnrelatedToAll([p, q], r)
      ensures Get(RenameValue(mid, old_, new_, q).tree, r) == Get(t, r)
    {
      assert [p, q][0] == p && [p, q][1] == q;
    }
  }

  lemma ComposeIsRenamed(t: Tree, n: Names)
    requires WellFormed(t) && RenameDocument(t, n, COMPOSE_PATH).ok
    ensures ComposeRenamed(t, RenameDocument(t, n, COMPOSE_PATH).tree, n)
  {
    assert COMPOSE_PATH != CONFIG_PATH by {
      assert |COMPOSE_PATH| == 1 && |CONFIG_PATH| == 2;
    }
    assert "name"[0] != "services"[0];
    var first := RenameValue(t, n.oldSlug, n.newSlug, ["name"]);
    TwoRenamed(t, first.tree, n.oldSlug, n.newSlug, ["name"], POSTGRES_DB);
  }

  // ------------------------------------------------------- every planned file

  predicate IsText(path: FilePath) {
    path != [] && (HasSuffix(path[|path| - 1], ".go") || HasSuffix(path[|path| - 1], ".md"))
  }

  predicate IsConfig(path: FilePath) {
    |path| > 1 && path[0] == "configs" && HasSuffix(path[|path| - 1], ".yaml")
  }

  /** go.mod names the new module; in source and documentation every reference to the old module points to the
      new one, and README.md has the new heading; documents are renamed when name or slug change. */
  ghost predicate Rewritten(n: Names, f: Formats, path: FilePath, before: string, after: string) {
    && (path == ["go.mod"] ==> after == f.formatMod(n.mod.(module_ := n.newModule)))
    && (IsText(path) ==> TextRewritten(n, before, after, path == ["README.md"] && n.newName != n.oldName))
    && (path == ["docker-compose.yml"] ==> ComposeRewritten(n, f, before, after))
    && (IsConfig(path) ==> ConfigRewritten(n, f, before, after, path == ["configs", "config.yaml"]))
    && (path != ["go.mod"] && !IsText(path) && path != ["docker-compose.yml"] && !IsConfig(path) ==> after == before)
  }

  ghost predicate TextRewritten(n: Names, before: string, after: string, heading: bool) {
    exists moved :: AllReplaced(before, n.oldModule + "/", n.newModule + "/", moved)
      && if heading then FirstReplaced(moved, "# " + n.oldName + "\n", "# " + n.newName + "\n", after) else after == moved
  }

  ghost predicate ComposeRewritten(n: Names, f: Formats, before: string, after: string) {
    if n.newSlug == n.oldSlug && n.newName == n.oldName then after == before
    else
      && f.parse(before).Some?
      && exists t' ::
        after == f.marshal(t') && (WellFormed(f.parse(before).value) ==> ComposeRenamed(f.parse(before).value, t', n))
  }

  ghost predicate ConfigRewritten(n: Names, f: Formats, before: string, after: string, main: bool) {
    if n.newSlug == n.oldSlug && n.newName == n.oldName then after == before
    else
      && f.parse(before).Some?
      && exists t' ::
        after == f.marshal(t') && (WellFormed(f.parse(before).value) ==> ConfigRenamed(f.parse(before).value, t', n, main))
  }

  lemma LastOfSuffix(s: string, suffix: string)
    requires suffix != [] && HasSuffix(s, suffix)
    ensures s != [] && s[|s| - 1] == suffix[|suffix| - 1]
  {
    assert s[|s| - |suffix|..][|suffix| - 1] == s[|s| - 1];
  }

  /** The kinds of file exclude each other. */
  lemma Kinds(path: FilePath)
    ensures IsText(path) ==> !IsDocument(path) && path != GO_MOD_PATH
    ensures path == README_PATH ==> IsText(path)
    ensures IsConfig(path) ==> path != COMPOSE_PATH && path != GO_MOD_PATH
    ensures GO_MOD_PATH != COMPOSE_PATH
  {
    assert |GO_MOD_PATH| == |COMPOSE_PATH| == |README_PATH| == 1;
    assert "go.mod"[0] != "docker-compose.yml"[0];
    assert "README.md"[6..] == ".md";
    if IsText(path) {
      var name := path[|path| - 1];
      if HasSuffix(name, ".go") {
        LastOfSuffix(name, ".go");
      } else {
        LastOfSuffix(name, ".md");
      }
      assert "go.mod"[5] == 'd' && "docker-compose.yml"[17] == 'l';
      NotGoMod(name);
      if HasSuffix(name, ".yaml") {
        LastOfSuffix(name, ".yaml");
      }
    }
  }

  lemma NotGoMod(name: string)
    requires HasSuffix(name, ".go") || HasSuffix(name, ".md")
    ensures name != "go.mod"
  {
    assert "go.mod"[3..] == "mod" && "mod"[0] == 'm' && ".go"[0] == '.' && ".md"[0] == '.';
  }

  lemma TextAfter(n: Names, f: Formats, path: FilePath, before: string, after: string)
    requires IsText(path) && FileAfter(n, f, path, before) == Ok(after)
    ensures TextRewritten(n, before, after, path == README_PATH && n.newName != n.oldName)
  {
    Kinds(path);
    var moved := ReplaceAll(before, n.oldModule + "/", n.newModule + "/");
    AllAreReplaced(before, n.oldModule + "/", n.newModule + "/");
    if path == README_PATH && n.newName != n.oldName {
      FirstIsReplaced(moved, "# " + n.oldName + "\n", "# " + n.newName + "\n");
    }
  }

  lemma DocumentAfter(n: Names, f: Formats, path: FilePath, before: string, after: string)
    requires IsDocument(path) && FileAfter(n, f, path, before) == Ok(after)
    ensures Renames(n) ==> f.parse(before).Some? && RenameDocument(f.parse(before).value, n, path).ok
    ensures Renames(n) ==> after == f.marshal(RenameDocument(f.parse(before).value, n, path).tree)
    ensures !Renames(n) ==> after == before
  {
    Kinds(path);
  }

  lemma OtherAfter(n: Names, f: Formats, path: FilePath, before: string, after: string)
    requires !IsDocument(path) && !IsText(path) && path != GO_MOD_PATH && FileAfter(n, f, path, before) == Ok(after)
    ensures after == before
  {
    Kinds(path);
  }

  lemma ComposeAfter(n: Names, f: Formats, before: string, after: string)
    requires FileAfter(n, f, COMPOSE_PATH, before) == Ok(after)
    ensures ComposeRewritten(n, f, before, after)
  {
    DocumentAfter(n, f, COMPOSE_PATH, before, after);
    if Renames(n) && WellFormed(f.parse(before).value) {
      ComposeIsRenamed(f.parse(before).value, n);
    }
  }

  lemma ConfigAfter(n: Names, f: Formats, path: FilePath, before: string, after: string)
    requires IsConfig(path) && '_' !in n.newSlug && FileAfter(n, f, path, before) == Ok(after)
    ensures ConfigRewritten(n, f, before, after, path == CONFIG_PATH)
  {
    Kinds(path);
    DocumentAfter(n, f, path, before, after);
    if Renames(n) && WellFormed(f.parse(before).value) {
      ConfigIsRenamed(f.parse(before).value, n, path);
    }
  }

  lemma FileIsRewritten(n: Names, f: Formats, path: FilePath, before: string, after: string)
    requires '_' !in n.newSlug && FileAfter(n, f, path, before) == Ok(after)
    ensures Rewritten(n, f, path, before, after)
  {
    Kinds(path);
    if IsText(path) {
      TextAfter(n, f, path, before, after);
    } else if path == GO_MOD_PATH {
      GoModAfter(n, f, before);
    } else if path == COMPOSE_PATH {
      ComposeAfter(n, f, before, after);
    } else if IsConfig(path) {
      ConfigAfter(n, f, path, before, after);
    } else {
      OtherAfter(n, f, path, before, after);
    }
  }

  // -------------------------------------------------------- the two local files

  ghost predicate LocalMade(p: Project, n: Names, f: Formats, jwt: string, file: File) {
    var example := ["configs", "config.local.example.yaml"];
    && file.mode == 0x180 && example in p.files && f.parse(p.files[example].content).Some?
    && var t := f.parse(p.files[example].content).value;
       exists t' :: file.content == f.marshal(t') && (WellFormed(t) ==> LocalFilled(t, t', n, jwt))
  }

  lemma LocalIsMade(p: Project, n: Names, f: Formats, secrets: Secrets, c: Change)
    requires '_' !in n.newSlug && LocalChange(p, n, f, secrets) == Ok([c])
    ensures c.path == LOCAL_PATH && c.path !in p.files && c.before == None
    ensures LocalMade(p, n, f, secrets.jwt, File(c.after, c.mode))
  {
    if LOCAL_PATH !in p.files {
      var t, secret := f.parse(p.files[EXAMPLE_PATH].content).value, ["auth", "jwt", "secret"];
      var mid := RenameConfig(t, n.oldSlug, n.newSlug).tree;
      if WellFormed(t) {
        FourRenamed(t, n.oldSlug, n.newSlug);
        LocalIsFilled(t, mid, n, secrets.jwt, secret);
      }
    }
  }

  ghost predicate SeedMade(p: Project, hash: string, file: File) {
    var seed := ["db", "seeds", "001_seed_admin.sql"];
    file.mode == 0x180 && seed in p.files && SeedFilled(p.files[seed].content, hash, file.content)
  }

  lemma SeedIsMade(p: Project, secrets: Secrets, c: Change)
    requires SeedChange(p, secrets) == Ok([c])
    ensures c.path == LOCAL_SEED_PATH && c.path !in p.files && c.before == None
    ensures SeedMade(p, secrets.hash, File(c.after, c.mode))
  {
    if LOCAL_SEED_PATH !in p.files {
      SeedIsFilled(p.files[SEED_PATH].content, secrets.hash);
    }
  }

  // --------------------------------------------------------------- the plan

  /** One planned change: a listed file with its new contents, or a new local file. */
  ghost predicate Right(p: Project, order: seq<FilePath>, n: Names, f: Formats, secrets: Secrets, c: Change) {
    if c.before.Some? then
      && c.path in order && c.path in p.files && p.files[c.path] == File(c.before.value, c.mode)
      && Rewritten(n, f, c.path, c.before.value, c.after)
    else
      && c.path !in p.files
      && (|| (c.path == ["configs", "config.local.yaml"] && LocalMade(p, n, f, secrets.jwt, File(c.after, c.mode)))
          || (c.path == ["db", "seeds", "001_seed_admin.local.sql"] && SeedMade(p, secrets.hash, File(c.after, c.mode))))
  }

  /** Every change is right, a file without one needs none, and the absent local files have theirs. */
  ghost predicate AllRight(p: Project, order: seq<FilePath>, n: Names, f: Formats, secrets: Secrets, changes: seq<Change>) {
    && (forall c | c in changes :: Right(p, order, n, f, secrets, c))
    && (forall q | q in order && q in p.files && !Touches(changes, q) ::
          Rewritten(n, f, q, p.files[q].content, p.files[q].content))
    && (["configs", "config.local.yaml"] in p.files || Touches(changes, ["configs", "config.local.yaml"]))
    && (["db", "seeds", "001_seed_admin.local.sql"] in p.files || Touches(changes, ["db", "seeds", "001_seed_admin.local.sql"]))
  }

  lemma WalkIsRight(p: Project, order: seq<FilePath>, n: Names, f: Formats, secrets: Secrets, c: Change)
    requires NoRepeats(order) && forall q | q in order :: q in p.files
    requires '_' !in n.newSlug && WalkChanges(Editor(n, f), p.files, order).Ok?
    requires c in WalkChanges(Editor(n, f), p.files, order).value
    ensures Right(p, order, n, f, secrets, c)
  {
    WalkMeans(Editor(n, f), p.files, order);
    var changes := WalkChanges(Editor(n, f), p.files, order).value;
    var i :| 0 <= i < |changes| && changes[i] == c;
    FileIsRewritten(n, f, c.path, p.files[c.path].content, c.after);
  }

  lemma PlanIsRight(p: Project, order: seq<FilePath>, n: Names, f: Formats, secrets: Secrets)
    requires NoRepeats(order) && forall q | q in order :: q in p.files
    requires '_' !in n.newSlug && PlanWith(p, order, n, f, secrets).Ok?
    ensures AllRight(p, order, n, f, secrets, PlanWith(p, order, n, f, secrets).value.changes)
  {
    var changes := PlanWith(p, order, n, f, secrets).value.changes;
    PlanMeans(p, order, n, f, secrets);
    forall c | c in changes
      ensures Right(p, order, n, f, secrets, c)
    {
      PartIsRight(p, order, n, f, secrets, c);
    }
    forall q | q in order && q in p.files && !Touches(changes, q)
      ensures Rewritten(n, f, q, p.files[q].content, p.files[q].content)
    {
      FileIsRewritten(n, f, q, p.files[q].content, p.files[q].content);
    }
    assert Proposed(p, order, n, f, LOCAL_PATH) || LOCAL_PATH in p.files;
    assert Proposed(p, order, n, f, LOCAL_SEED_PATH) || LOCAL_SEED_PATH in p.files;
  }

  lemma PartIsRight(p: Project, order: seq<FilePath>, n: Names, f: Formats, secrets: Secrets, c: Change)
    requires NoRepeats(order) && forall q | q in order :: q in p.files
    requires '_' !in n.newSlug && PlanWith(p, order, n, f, secrets).Ok?
    requires c in PlanWith(p, order, n, f, secrets).value.changes
    ensures Right(p, order, n, f, secrets, c)
  {
    if c in WalkChanges(Editor(n, f), p.files, order).value {
      WalkIsRight(p, order, n, f, secrets, c);
    } else if c in LocalChange(p, n, f, secrets).value {
      LocalIsMade(p, n, f, secrets, c);
    } else {
      SeedIsMade(p, secrets, c);
    }
  }

  // ------------------------------------------------------------ after a run

  /** The project a successful run leaves: every listed file rewritten under its old mode, the local files that
      were absent made, and everything else as before. */
  ghost predicate Moved(p: Project, order: seq<FilePath>, n: Names, f: Formats, secrets: Secrets, files: map<FilePath, File>) {
    && (forall q | q in order && q in p.files ::
          && q in files && files[q].mode == p.files[q].mode
          && Rewritten(n, f, q, p.files[q].content, files[q].content))
    && (LOCAL_PATH !in p.files ==> LOCAL_PATH in files && LocalMade(p, n, f, secrets.jwt, files[LOCAL_PATH]))
    && (LOCAL_SEED_PATH !in p.files ==> LOCAL_SEED_PATH in files && SeedMade(p, secrets.hash, files[LOCAL_SEED_PATH]))
    && (forall q | q !in order && (q in p.files || (q != LOCAL_PATH && q != LOCAL_SEED_PATH)) :: Same(p.files, files, q))
  }

  /** Where one path stands after all changes were written. */
  lemma AfterRun(p: Project, order: seq<FilePath>, n: Names, f: Formats, secrets: Secrets, changes: seq<Change>,
      p': Project, q: FilePath)
    requires AllRight(p, order, n, f, secrets, changes) && Applied(p, changes, p')
    ensures (exists c :: c in changes && c.path == q && Right(p, order, n, f, secrets, c) && Written(p'.files, c))
      || (!Touches(changes, q) && Same(p.files, p'.files, q))
  {
    if i :| 0 <= i < |changes| && changes[i].path == q {
      assert changes[i] in changes && Written(p'.files, changes[i]);
    } else {
      assert Untouched(changes, q);
    }
  }

  lemma RunMoves(p: Project, order: seq<FilePath>, n: Names, f: Formats, secrets: Secrets, changes: seq<Change>, p': Project)
    requires AllRight(p, order, n, f, secrets, changes) && Applied(p, changes, p')
    ensures Moved(p, order, n, f, secrets, p'.files)
  {
    forall q | q in order && q in p.files
      ensures q in p'.files && p'.files[q].mode == p.files[q].mode
      ensures Rewritten(n, f, q, p.files[q].content, p'.files[q].content)
    {
      AfterRun(p, order, n, f, secrets, changes, p', q);
    }
    forall q | q !in order && (q in p.files || (q != LOCAL_PATH && q != LOCAL_SEED_PATH))
      ensures Same(p.files, p'.files, q)
    {
      AfterRun(p, order, n, f, secrets, changes, p', q);
    }
    AfterRun(p, order, n, f, secrets, changes, p', LOCAL_PATH);
    AfterRun(p, order, n, f, secrets, changes, p', LOCAL_SEED_PATH);
    assert |LOCAL_PATH| == 2 && |LOCAL_SEED_PATH| == 3;
  }

  // --------------------------------------------------- names, and when a plan exists

  /** The old and the new identity that the project and the options determine. */
  ghost predicate Named(p: Project, opts: Options, f: Formats, n: Names) {
    && ["go.mod"] in p.files && f.parseMod(p.files[["go.mod"]].content) == Some(n.mod) && n.oldModule == n.mod.module_
    && n.newModule == (if opts.module_ == "" then n.oldModule else opts.module_) && f.validModule(n.newModule)
    && CONFIG_PATH in p.files && f.parse(p.files[CONFIG_PATH].content).Some?
    && n.oldSlug == Get(f.parse(p.files[CONFIG_PATH].content).value, ["app", "slug"])
    && n.oldName == Get(f.parse(p.files[CONFIG_PATH].content).value, ["app", "name"])
    && n.newName == (if opts.name == "" then n.oldName else opts.name)
    && (opts.slug != "" ==> n.newSlug == opts.slug)
    && (opts.slug == "" && n.newName == n.oldName ==> n.newSlug == n.oldSlug)
    && (opts.slug == "" && n.newName != n.oldName ==> n.newSlug == Normalize(n.newName))
    && PlanAccepts(n.newSlug)
  }

  /** The names are resolved exactly so, and otherwise not at all. */
  lemma ResolvedIff(p: Project, opts: Options, f: Formats, n: Names)
    ensures Resolve(p, opts, f) == Ok(n) <==> Named(p, opts, f, n)
  {
    assert GO_MOD_PATH == ["go.mod"];
    if Resolve(p, opts, f) == Ok(n) {
      ResolveMeans(p, opts, f, n);
    }
  }

  /** Where a field can be read, the field beside it can be set. */
  lemma {:induction false} SetBeside(t: Tree, v: string, p: Path, b: string, c: string)
    requires Get(t, p + [b]) != ""
    ensures Set(t, v, p + [c]).Some?
    decreases |p|
  {
    var read, written := p + [b], p + [c];
    SetOnEmpty(v, written[1..]);
    var node := if t.kind == Document && |t.content| > 0 then t.content[0] else t;
    var k := FindKey(node.content, read[0], 0);
    if p == [] {
      assert written[1..] == [] && node.kind == Mapping;
      var at := FindKey(node.content, c, 0);
      if at + 1 < |node.content| {
        assert Set(node.content[at + 1], v, []).Some?;
      }
    } else if !IsNull(node) {
      assert read[1..] == p[1..] + [b] && written[1..] == p[1..] + [c];
      SetBeside(node.content[k + 1], v, p[1..], b, c);
    }
  }

  /** The name can be set where the slug was read. */
  lemma NameSettable(t: Tree, n: Names)
    requires WellFormed(t) && '_' !in n.newSlug && n.newSlug != "" && n.oldSlug != ""
    requires Get(t, ["app", "slug"]) == n.oldSlug
    ensures RenameConfig(t, n.oldSlug, n.newSlug).ok
    ensures Set(RenameConfig(t, n.oldSlug, n.newSlug).tree, n.newName, ["app", "name"]).Some?
  {
    UnderscoreNeverFeeds(n.oldSlug, n.newSlug);
    RenameConfigSubstitutes(t, n.oldSlug, n.newSlug);
    FourRenamed(t, n.oldSlug, n.newSlug);
    var mid := RenameConfig(t, n.oldSlug, n.newSlug).tree;
    SlugThenName(t, mid, n, ["app"]);
  }

  lemma SlugThenName(t: Tree, mid: Tree, n: Names, p: Path)
    requires p == ["app"] && n.newSlug != ""
    requires RenamedAt(t, mid, n.oldSlug, n.newSlug, ["app", "slug"]) && Get(t, ["app", "slug"]) == n.oldSlug
    ensures Set(mid, n.newName, ["app", "name"]).Some?
  {
    assert p + ["slug"] == ["app", "slug"] && p + ["name"] == ["app", "name"];
    SetBeside(mid, n.newName, p, "slug", "name");
  }

  /** A listed file can be edited unless it is a document that is to be renamed and does not parse. */
  lemma EditableIff(n: Names, f: Formats, path: FilePath, before: string)
    requires '_' !in n.newSlug && n.newSlug != "" && n.oldSlug != ""
    requires f.parse(before).Some? ==> WellFormed(f.parse(before).value)
    requires path == CONFIG_PATH && f.parse(before).Some? ==> Get(f.parse(before).value, ["app", "slug"]) == n.oldSlug
    ensures FileAfter(n, f, path, before).Ok? <==> (Renames(n) && IsDocument(path) ==> f.parse(before).Some?)
  {
    Kinds(path);
    if IsDocument(path) && f.parse(before).Some? {
      DocumentRenames(f.parse(before).value, n, path);
    }
  }

  lemma DocumentRenames(t: Tree, n: Names, path: FilePath)
    requires WellFormed(t) && '_' !in n.newSlug && n.newSlug != "" && n.oldSlug != ""
    requires path == CONFIG_PATH ==> Get(t, ["app", "slug"]) == n.oldSlug
    ensures RenameDocument(t, n, path).ok
  {
    assert |COMPOSE_PATH| == 1 && |CONFIG_PATH| == 2;
    if path == COMPOSE_PATH {
      RenameValueMeans(t, n.oldSlug, n.newSlug, ["name"]);
      RenameValueMeans(RenameValue(t, n.oldSlug, n.newSlug, ["name"]).tree, n.oldSlug, n.newSlug, POSTGRES_DB);
    } else if path == CONFIG_PATH {
      NameSettable(t, n);
    } else {
      UnderscoreNeverFeeds(n.oldSlug, n.newSlug);
      RenameConfigSubstitutes(t, n.oldSlug, n.newSlug);
    }
  }

  /** What has to hold of the parsed documents: no mapping carries the null tag, and the old slug is known. */
  ghost predicate Sane(p: Project, order: seq<FilePath>, f: Formats, n: Names) {
    && n.oldSlug != ""
    && forall q | q in order && q in p.files && f.parse(p.files[q].content).Some? :: WellFormed(f.parse(p.files[q].content).value)
  }

  /** A plan exists if and only if every document that is to be renamed parses and the absent local files can be
      made: the secret is not blocked in the example, and the seed has its one placeholder. */
  lemma PlanExistsIff(p: Project, order: seq<FilePath>, opts: Options, f: Formats, secrets: Secrets, n: Names)
    requires (forall q | q in order :: q in p.files) && Named(p, opts, f, n) && Sane(p, order, f, n)
    ensures PlanOf(p, order, opts, f, secrets).Ok? <==>
      && (forall q | q in order && Renames(n) && IsDocument(q) :: f.parse(p.files[q].content).Some?)
      && LocalReady(p, n, f, secrets) && SeedReady(p)
  {
    ResolvedIff(p, opts, f, n);
    PlanOkIff(p, order, n, f, secrets);
    AcceptedIsSafe(n.newSlug);
    forall q | q in order
      ensures FileAfter(n, f, q, p.files[q].content).Ok? <==> (Renames(n) && IsDocument(q) ==> f.parse(p.files[q].content).Some?)
    {
      EditableIff(n, f, q, p.files[q].content);
    }
  }
}

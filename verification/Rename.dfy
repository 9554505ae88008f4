/**
 The rename chain: for each of four configuration paths and each of three suffixes, a value
 equal to the old name is replaced by the new one.  Twelve conditional updates in a row are
 proved to be one simultaneous substitution, exactly when the new slug is not the old one
 with a suffix.
 */
module Rename {
  import opened Prelude
  import opened YamlTree
  import opened YamlNode

  const CONFIG_PATHS: seq<Path> :=
    [["app", "slug"], ["database", "dbname"], ["database", "application_name"], ["auth", "jwt", "issuer"]]

  const SUFFIXES: seq<string> := ["", "_dev", "_test"]

  /** A tree and whether the code is still going; after an error the tree stays as it is. */
  datatype Outcome = Outcome(tree: Tree, ok: bool)

  // ------------------------------------------------- the code, as functions

  /** renameValue. */
  function RenameValue(t: Tree, oldValue: string, newValue: string, path: Path): Outcome {
    if Get(t, path) == oldValue then
      var r := Set(t, newValue, path);
      if r.Some? then Outcome(r.value, true) else Outcome(t, false)
    else
      Outcome(t, true)
  }

  /** The inner loop of renameConfig over the first `k` suffixes. */
  function RenamePath(t: Tree, oldSlug: string, newSlug: string, path: Path, k: nat): Outcome
    requires k <= |SUFFIXES|
  {
    if k == 0 then Outcome(t, true)
    else
      var o := RenamePath(t, oldSlug, newSlug, path, k - 1);
      if !o.ok then o else RenameValue(o.tree, oldSlug + SUFFIXES[k - 1], newSlug + SUFFIXES[k - 1], path)
  }

  /** The outer loop of renameConfig over the first `k` paths. */
  function RenameAll(paths: seq<Path>, t: Tree, oldSlug: string, newSlug: string, k: nat): Outcome
    requires k <= |paths|
  {
    if k == 0 then Outcome(t, true)
    else
      var o := RenameAll(paths, t, oldSlug, newSlug, k - 1);
      if !o.ok then o else RenamePath(o.tree, oldSlug, newSlug, paths[k - 1], |SUFFIXES|)
  }

  /** renameConfig. */
  function RenameConfig(t: Tree, oldSlug: string, newSlug: string): Outcome {
    RenameAll(CONFIG_PATHS, t, oldSlug, newSlug, |CONFIG_PATHS|)
  }

  // --------------------------------------------------- the code, on the heap

  method RenameValueIn(node: Node, oldValue: string, newValue: string, path: Path) returns (ok: bool)
    requires node.Valid() && Even(node.tree)
    modifies node.repr
    ensures node.Valid() && fresh(node.repr - old(node.repr)) && Even(node.tree)
    ensures Outcome(node.tree, ok) == RenameValue(old(node.tree), oldValue, newValue, path)
  {
    var current := node.YamlString(path);
    if current == oldValue {
      if Set(node.tree, newValue, path).Some? {
        SetKeepsShape(node.tree, newValue, path);
      }
      ok := node.YamlSet(newValue, path);
      return;
    }
    return true;
  }

  method RenamePathIn(node: Node, oldSlug: string, newSlug: string, path: Path) returns (ok: bool)
    requires node.Valid() && Even(node.tree)
    modifies node.repr
    ensures node.Valid() && fresh(node.repr - old(node.repr)) && Even(node.tree)
    ensures Outcome(node.tree, ok) == RenamePath(old(node.tree), oldSlug, newSlug, path, |SUFFIXES|)
  {
    ghost var t := node.tree;
    for k := 0 to |SUFFIXES|
      invariant node.Valid() && fresh(node.repr - old(node.repr)) && Even(node.tree)
      invariant Outcome(node.tree, true) == RenamePath(t, oldSlug, newSlug, path, k)
    {
      ok := RenameValueIn(node, oldSlug + SUFFIXES[k], newSlug + SUFFIXES[k], path);
      if !ok {
        StoppedPath(t, oldSlug, newSlug, path, k + 1);
        return;
      }
    }
    return true;
  }

  method RenameConfigIn(node: Node, oldSlug: string, newSlug: string) returns (ok: bool)
    requires node.Valid() && Even(node.tree)
    modifies node.repr
    ensures node.Valid() && fresh(node.repr - old(node.repr)) && Even(node.tree)
    ensures Outcome(node.tree, ok) == RenameConfig(old(node.tree), oldSlug, newSlug)
  {
    ghost var t := node.tree;
    for k := 0 to |CONFIG_PATHS|
      invariant node.Valid() && fresh(node.repr - old(node.repr)) && Even(node.tree)
      invariant Outcome(node.tree, true) == RenameAll(CONFIG_PATHS, t, oldSlug, newSlug, k)
    {
      ok := RenamePathIn(node, oldSlug, newSlug, CONFIG_PATHS[k]);
      if !ok {
        StoppedAll(CONFIG_PATHS, t, oldSlug, newSlug, k + 1);
        return;
      }
    }
    return true;
  }

  lemma {:induction false} StoppedPath(t: Tree, oldSlug: string, newSlug: string, path: Path, k: nat)
    requires k <= |SUFFIXES| && !RenamePath(t, oldSlug, newSlug, path, k).ok
    ensures RenamePath(t, oldSlug, newSlug, path, |SUFFIXES|) == RenamePath(t, oldSlug, newSlug, path, k)
    decreases |SUFFIXES| - k
  {
    if k < |SUFFIXES| {
      StoppedPath(t, oldSlug, newSlug, path, k + 1);
    }
  }

  lemma {:induction false} StoppedAll(paths: seq<Path>, t: Tree, oldSlug: string, newSlug: string, k: nat)
    requires k <= |paths| && !RenameAll(paths, t, oldSlug, newSlug, k).ok
    ensures RenameAll(paths, t, oldSlug, newSlug, |paths|) == RenameAll(paths, t, oldSlug, newSlug, k)
    decreases |paths| - k
  {
    if k < |paths| {
      StoppedAll(paths, t, oldSlug, newSlug, k + 1);
    }
  }

  // ----------------------------------------------- simultaneous substitution

  /** The intended meaning: old+s becomes new+s, all at once. */
  function Subst(v: string, oldSlug: string, newSlug: string): string {
    if v == oldSlug then newSlug
    else if v == oldSlug + "_dev" then newSlug + "_dev"
    else if v == oldSlug + "_test" then newSlug + "_test"
    else v
  }

  /** What the three conditional updates make of one value. */
  function Chain(v: string, oldSlug: string, newSlug: string): string {
    var a := if v == oldSlug then newSlug else v;
    var b := if a == oldSlug + "_dev" then newSlug + "_dev" else a;
    if b == oldSlug + "_test" then newSlug + "_test" else b
  }

  /** The new slug is the old one with a suffix, so that one update feeds the next. */
  predicate Feeds(oldSlug: string, newSlug: string) {
    newSlug == oldSlug + "_dev" || newSlug == oldSlug + "_test"
  }

  lemma DevIsNotTest(a: string, b: string)
    ensures a + "_dev" != b + "_test"
  {
    assert (a + "_dev")[|a + "_dev"| - 1] == 'v';
    assert (b + "_test")[|b + "_test"| - 1] == 't';
  }

  /** The chain is the substitution for every value if and only if it does not feed itself. */
  lemma ChainIsSubstIff(oldSlug: string, newSlug: string)
    ensures (forall v :: Chain(v, oldSlug, newSlug) == Subst(v, oldSlug, newSlug)) <==> !Feeds(oldSlug, newSlug)
  {
    DevIsNotTest(newSlug, oldSlug);
    DevIsNotTest(oldSlug, oldSlug);
    if Feeds(oldSlug, newSlug) {
      assert |Chain(oldSlug, oldSlug, newSlug)| > |newSlug|;
      assert Subst(oldSlug, oldSlug, newSlug) == newSlug;
    }
  }

  lemma {:induction false} UnderscoreNeverFeeds(oldSlug: string, newSlug: string)
    requires '_' !in newSlug
    ensures !Feeds(oldSlug, newSlug)
  {
    assert (oldSlug + "_dev")[|oldSlug|] == '_' && (oldSlug + "_test")[|oldSlug|] == '_';
  }

  // ------------------------------------------------- meaning for the document

  ghost predicate SameElsewhere(t: Tree, t': Tree, path: Path) {
    forall q | Unrelated(path, q) :: Get(t', q) == Get(t, q)
  }

  lemma RenameValueMeans(t: Tree, oldValue: string, newValue: string, path: Path)
    requires WellFormed(t)
    ensures var o := RenameValue(t, oldValue, newValue, path);
      && WellFormed(o.tree) && SameElsewhere(t, o.tree, path)
      && (o.ok ==> Get(o.tree, path) == if Get(t, path) == oldValue then newValue else Get(t, path))
      && (oldValue != "" ==> o.ok)
  {
    WellFormedIsEven(t);
    if oldValue != "" && Get(t, path) == oldValue {
      SetWhereGet(t, newValue, path);
    }
    if Get(t, path) == oldValue && Set(t, newValue, path).Some? {
      SetKeepsShape(t, newValue, path);
      GetAfterSet(t, newValue, path);
      forall q | Unrelated(path, q)
        ensures Get(Set(t, newValue, path).value, q) == Get(t, q)
      {
        WellFormedSpares(t, path);
        SetFrame(t, newValue, path, q);
      }
    }
  }

  lemma RenamePathMeans(t: Tree, oldSlug: string, newSlug: string, path: Path)
    requires WellFormed(t)
    ensures var o := RenamePath(t, oldSlug, newSlug, path, |SUFFIXES|);
      && WellFormed(o.tree) && SameElsewhere(t, o.tree, path)
      && (o.ok ==> Get(o.tree, path) == Chain(Get(t, path), oldSlug, newSlug))
      && (oldSlug != "" ==> o.ok)
  {
    var o1 := RenamePath(t, oldSlug, newSlug, path, 1);
    assert o1 == RenameValue(t, oldSlug + "", newSlug + "", path) by {
      assert RenamePath(t, oldSlug, newSlug, path, 0) == Outcome(t, true);
    }
    assert oldSlug + "" == oldSlug && newSlug + "" == newSlug;
    RenameValueMeans(t, oldSlug, newSlug, path);
    if o1.ok {
      var o2 := RenamePath(t, oldSlug, newSlug, path, 2);
      RenameValueMeans(o1.tree, oldSlug + "_dev", newSlug + "_dev", path);
      assert o2.ok && SameElsewhere(t, o2.tree, path);
      RenameValueMeans(o2.tree, oldSlug + "_test", newSlug + "_test", path);
    }
  }

  /** No configuration path is a prefix of another. */
  lemma PathsUnrelated(i: nat, j: nat)
    requires i < |CONFIG_PATHS| && j < |CONFIG_PATHS| && i != j
    ensures Unrelated(CONFIG_PATHS[i], CONFIG_PATHS[j])
  {
    assert CONFIG_PATHS[i] == ["app", "slug"] || CONFIG_PATHS[i] == ["database", "dbname"]
      || CONFIG_PATHS[i] == ["database", "application_name"] || CONFIG_PATHS[i] == ["auth", "jwt", "issuer"];
    assert "slug" != "dbname";
    assert "dbname"[0] != "application_name"[0];
    assert "app"[1] != "database"[1] && "app"[1] != "auth"[1] && "database"[0] != "auth"[0];
  }

  /** After the first `k` paths: those went through the chain, the others and everything unrelated are as before. */
  ghost predicate RenamedUpTo(paths: seq<Path>, t: Tree, t': Tree, oldSlug: string, newSlug: string, k: nat) {
    && WellFormed(t')
    && (forall i | 0 <= i < |paths| :: Get(t', paths[i]) ==
          if i < k then Chain(Get(t, paths[i]), oldSlug, newSlug) else Get(t, paths[i]))
    && (forall q | UnrelatedToAll(paths, q) :: Get(t', q) == Get(t, q))
  }

  predicate UnrelatedToAll(paths: seq<Path>, q: Path) {
    forall i | 0 <= i < |paths| :: Unrelated(paths[i], q)
  }

  ghost predicate PairwiseUnrelated(paths: seq<Path>) {
    forall i, j | 0 <= i < |paths| && 0 <= j < |paths| && i != j :: Unrelated(paths[i], paths[j])
  }

  lemma RenamedStep(paths: seq<Path>, t: Tree, mid: Tree, t': Tree, oldSlug: string, newSlug: string, k: nat)
    requires PairwiseUnrelated(paths) && k < |paths|
    requires RenamedUpTo(paths, t, mid, oldSlug, newSlug, k)
    requires WellFormed(t') && SameElsewhere(mid, t', paths[k])
    requires Get(t', paths[k]) == Chain(Get(mid, paths[k]), oldSlug, newSlug)
    ensures RenamedUpTo(paths, t, t', oldSlug, newSlug, k + 1)
  {
  }

  lemma {:induction false} RenameAllUpTo(paths: seq<Path>, t: Tree, oldSlug: string, newSlug: string, k: nat)
    requires WellFormed(t) && PairwiseUnrelated(paths) && k <= |paths|
    ensures var o := RenameAll(paths, t, oldSlug, newSlug, k);
      (oldSlug != "" ==> o.ok) && (o.ok ==> RenamedUpTo(paths, t, o.tree, oldSlug, newSlug, k))
  {
    if k > 0 {
      RenameAllUpTo(paths, t, oldSlug, newSlug, k - 1);
      var o := RenameAll(paths, t, oldSlug, newSlug, k - 1);
      if o.ok {
        RenamePathMeans(o.tree, oldSlug, newSlug, paths[k - 1]);
        var o' := RenamePath(o.tree, oldSlug, newSlug, paths[k - 1], |SUFFIXES|);
        if o'.ok {
          RenamedStep(paths, t, o.tree, o'.tree, oldSlug, newSlug, k - 1);
        }
      }
    }
  }

  lemma AllPathsUnrelated()
    ensures PairwiseUnrelated(CONFIG_PATHS)
  {
    forall i, j | 0 <= i < |CONFIG_PATHS| && 0 <= j < |CONFIG_PATHS| && i != j
      ensures Unrelated(CONFIG_PATHS[i], CONFIG_PATHS[j])
    {
      PathsUnrelated(i, j);
    }
  }

  /** renameConfig is a simultaneous substitution on its four paths and touches nothing else;
      with a non-empty old slug it cannot fail. */
  lemma RenameConfigSubstitutes(t: Tree, oldSlug: string, newSlug: string)
    requires WellFormed(t) && !Feeds(oldSlug, newSlug)
    ensures var o := RenameConfig(t, oldSlug, newSlug);
      && (oldSlug != "" ==> o.ok)
      && (o.ok ==>
            && WellFormed(o.tree)
            && (forall path | path in CONFIG_PATHS :: Get(o.tree, path) == Subst(Get(t, path), oldSlug, newSlug))
            && (forall q | UnrelatedToAll(CONFIG_PATHS, q) :: Get(o.tree, q) == Get(t, q)))
  {
    AllPathsUnrelated();
    RenameAllUpTo(CONFIG_PATHS, t, oldSlug, newSlug, |CONFIG_PATHS|);
    ChainIsSubstIff(oldSlug, newSlug);
  }

  // -------------------------------------------------------------- round trip

  predicate Takes(v: string, slug: string) {
    v == slug || v == slug + "_dev" || v == slug + "_test"
  }

  /** Renaming there and back restores a value exactly when it was not already a new name. */
  lemma SubstBackIff(v: string, a: string, b: string)
    requires '_' !in a && '_' !in b && a != b
    ensures Subst(Subst(v, a, b), b, a) == v <==> !Takes(v, b)
  {
    SuffixesSeparate(a, b);
    SuffixesSeparate(b, a);
    SuffixesSeparate(a, a);
    SuffixesSeparate(b, b);
  }

  /** Slugs without an underscore: a suffixed slug determines slug and suffix. */
  lemma SuffixesSeparate(a: string, b: string)
    requires '_' !in a && '_' !in b
    ensures a != b + "_dev" && a != b + "_test" && a + "_dev" != b + "_test"
    ensures a + "_dev" == b + "_dev" <==> a == b
    ensures a + "_test" == b + "_test" <==> a == b
  {
    UnderscoreNeverFeeds(b, a);
    DevIsNotTest(a, b);
    if a + "_dev" == b + "_dev" {
      assert a == (a + "_dev")[..|a|] == (b + "_dev")[..|b|] == b;
    }
    if a + "_test" == b + "_test" {
      assert a == (a + "_test")[..|a|] == (b + "_test")[..|b|] == b;
    }
  }

  /** On a document: rename there and back is the identity on the values unless a path held a new name. */
  lemma RenameRoundTrip(t: Tree, a: string, b: string)
    requires WellFormed(t) && a != "" && b != "" && '_' !in a && '_' !in b && a != b
    ensures var t1 := RenameConfig(t, a, b).tree;
      var t2 := RenameConfig(t1, b, a).tree;
      && (forall path | path in CONFIG_PATHS :: Get(t2, path) == Get(t, path) <==> !Takes(Get(t, path), b))
      && (forall q | UnrelatedToAll(CONFIG_PATHS, q) :: Get(t2, q) == Get(t, q))
  {
    UnderscoreNeverFeeds(a, b);
    UnderscoreNeverFeeds(b, a);
    RenameConfigSubstitutes(t, a, b);
    RenameConfigSubstitutes(RenameConfig(t, a, b).tree, b, a);
    forall path | path in CONFIG_PATHS {
      SubstBackIff(Get(t, path), a, b);
    }
  }
}

/**
 YAML trees as values: what yamlString reads and what yamlSet leaves behind.
 The in-place code is proved equal to these functions in `YamlNode`.
 */
module YamlTree {
  import opened Prelude

  datatype Kind = Zero | Document | Mapping | Sequence | Scalar | Alias

  datatype Tree = Tree(kind: Kind, tag: string, value: string, content: seq<Tree>)

  type Path = seq<string>

  const NULL_TAG := "!!null"

  const BLANK := Tree(Zero, "", "", [])

  const EMPTY_MAPPING := Tree(Mapping, "!!map", "", [])

  function KeyNode(key: string): Tree {
    Tree(Scalar, "!!str", key, [])
  }

  /** A mapping holds keys and values in turn. */
  predicate Even(t: Tree) {
    && (t.kind == Mapping ==> |t.content| % 2 == 0)
    && forall i | 0 <= i < |t.content| :: Even(t.content[i])
  }

  /** In addition no mapping carries the null tag, as in any parsed file without explicit tags. */
  predicate WellFormed(t: Tree) {
    && (t.kind == Mapping ==> |t.content| % 2 == 0 && t.tag != NULL_TAG)
    && forall i | 0 <= i < |t.content| :: WellFormed(t.content[i])
  }

  // ----------------------------------------------------------------- reading

  /** The index of the first key equal to `key`, or the end. */
  function FindKey(content: seq<Tree>, key: string, i: nat): (k: nat)
    requires i <= |content|
    ensures i <= k <= |content|
    ensures (k - i) % 2 == 0 || k == |content|
    ensures k + 1 < |content| ==> content[k].value == key
    decreases |content| - i
  {
    if i + 1 >= |content| then |content|
    else if content[i].value == key then i
    else FindKey(content, key, i + 2)
  }

  /** No earlier key is equal. */
  lemma {:induction false} FindKeyFirst(content: seq<Tree>, key: string, i: nat)
    requires i <= |content|
    ensures forall j | i <= j < FindKey(content, key, i) && (j - i) % 2 == 0 && j + 1 < |content| :: content[j].value != key
    decreases |content| - i
  {
    if i + 1 < |content| && content[i].value != key {
      FindKeyFirst(content, key, i + 2);
    }
  }

  /** yamlString. */
  function Get(t: Tree, path: Path): string
    decreases |path|, 1
  {
    GetInner(if t.kind == Document && |t.content| > 0 then t.content[0] else t, path)
  }

  function GetInner(t: Tree, path: Path): string
    decreases |path|, 0
  {
    if path == [] then t.value
    else if t.kind != Mapping then ""
    else
      var k := FindKey(t.content, path[0], 0);
      if k < |t.content| then (if k + 1 < |t.content| then Get(t.content[k + 1], path[1..]) else "") else ""
  }

  // ----------------------------------------------------------------- writing

  /** yamlSet: the new tree, or the error "the parent must be an object". */
  function Set(t: Tree, v: string, path: Path): Option<Tree>
    decreases |path|, 1
  {
    if t.kind == Document then
      var inner := SetInner(if |t.content| > 0 then t.content[0] else BLANK, v, path);
      if inner.None? then None
      else Some(t.(content := if |t.content| > 0 then t.content[0 := inner.value] else [inner.value]))
    else
      SetInner(t, v, path)
  }

  predicate IsNull(t: Tree) {
    t.kind == Zero || t.tag == NULL_TAG
  }

  function SetInner(t: Tree, v: string, path: Path): Option<Tree>
    decreases |path|, 0
  {
    if path == [] then Some(Tree(Scalar, "!!str", v, []))
    else
      var m := if IsNull(t) then EMPTY_MAPPING else t;
      if m.kind != Mapping then None
      else
        var k := FindKey(m.content, path[0], 0);
        if k + 1 < |m.content| then
          var child := Set(m.content[k + 1], v, path[1..]);
          if child.None? then None else Some(m.(content := m.content[k + 1 := child.value]))
        else
          var child := Set(EMPTY_MAPPING, v, path[1..]);
          if child.None? then None else Some(m.(content := m.content + [KeyNode(path[0]), child.value]))
  }

  // ------------------------------------------------------------ key searches

  /** Values sit at odd positions, so replacing one does not disturb the search. */
  lemma {:induction false} FindKeyUpdate(content: seq<Tree>, key: string, i: nat, at: nat, child: Tree)
    requires i <= |content| && i % 2 == 0 && at < |content| && at % 2 == 1
    ensures FindKey(content[at := child], key, i) == FindKey(content, key, i)
    decreases |content| - i
  {
    if i + 1 < |content| && content[i].value != key {
      FindKeyUpdate(content, key, i + 2, at, child);
    }
  }

  /** What is found under each key after one value was replaced. */
  lemma ValueBeside(content: seq<Tree>, k: nat, child: Tree, key: string, other: string)
    requires k == FindKey(content, key, 0) && k + 1 < |content|
    ensures var content', at := content[k + 1 := child], FindKey(content, other, 0);
      && FindKey(content', other, 0) == at
      && (at + 1 < |content| ==> content'[at + 1] == if other == key then child else content[at + 1])
  {
    FindKeyUpdate(content, other, 0, k + 1, child);
    var at := FindKey(content, other, 0);
    if at + 1 < |content| {
      assert content[at].value == other && content[k].value == key;
    }
  }

  /** A new pair is found under its own key when the key was absent, and hides nothing. */
  lemma {:induction false} FindKeyAppend(content: seq<Tree>, key: string, i: nat, added: string, child: Tree)
    requires i <= |content| && i % 2 == 0 && |content| % 2 == 0
    ensures
      var longer := content + [KeyNode(added), child];
      FindKey(longer, key, i) ==
        if FindKey(content, key, i) < |content| then FindKey(content, key, i)
        else if key == added then |content| else |longer|
    decreases |content| - i
  {
    var longer := content + [KeyNode(added), child];
    if i + 1 < |content| {
      assert longer[i] == content[i];
      if content[i].value != key {
        FindKeyAppend(content, key, i + 2, added, child);
      }
    } else {
      assert longer[i] == KeyNode(added);
      assert key != added ==> FindKey(longer, key, i) == FindKey(longer, key, i + 2);
    }
  }

  // ----------------------------------------------------------- get after set

  lemma {:induction false} SetOnEmpty(v: string, path: Path)
    ensures Set(EMPTY_MAPPING, v, path).Some?
    decreases |path|
  {
    if path != [] {
      SetOnEmpty(v, path[1..]);
    }
  }

  /** After a successful yamlSet, yamlString reads the value back. */
  lemma {:induction false} GetAfterSet(t: Tree, v: string, path: Path)
    requires Even(t) && Set(t, v, path).Some?
    ensures Get(Set(t, v, path).value, path) == v
    decreases |path|, 1
  {
    if t.kind == Document {
      GetAfterSetInner(if |t.content| > 0 then t.content[0] else BLANK, v, path);
    } else {
      GetAfterSetInner(t, v, path);
      var t' := SetInner(t, v, path).value;
      assert t'.kind != Document;
    }
  }

  lemma {:induction false} GetAfterSetInner(t: Tree, v: string, path: Path)
    requires Even(t) && SetInner(t, v, path).Some?
    ensures GetInner(SetInner(t, v, path).value, path) == v
    decreases |path|, 0
  {
    if path != [] {
      var m := if IsNull(t) then EMPTY_MAPPING else t;
      var k := FindKey(m.content, path[0], 0);
      if k + 1 < |m.content| {
        GetAfterSet(m.content[k + 1], v, path[1..]);
        GetReplaced(m, k, Set(m.content[k + 1], v, path[1..]).value, path);
      } else {
        GetAfterSet(EMPTY_MAPPING, v, path[1..]);
        GetAppended(m, Set(EMPTY_MAPPING, v, path[1..]).value, path);
      }
    }
  }

  lemma GetReplaced(m: Tree, k: nat, child: Tree, path: Path)
    requires m.kind == Mapping && path != [] && k == FindKey(m.content, path[0], 0) && k + 1 < |m.content|
    ensures GetInner(m.(content := m.content[k + 1 := child]), path) == Get(child, path[1..])
  {
    FindKeyUpdate(m.content, path[0], 0, k + 1, child);
  }

  lemma GetAppended(m: Tree, child: Tree, path: Path)
    requires m.kind == Mapping && |m.content| % 2 == 0 && path != [] && FindKey(m.content, path[0], 0) == |m.content|
    ensures GetInner(m.(content := m.content + [KeyNode(path[0]), child]), path) == Get(child, path[1..])
  {
    FindKeyAppend(m.content, path[0], 0, path[0], child);
  }

  // ------------------------------------------------------------------- frame

  /** Neither path is a prefix of the other. */
  predicate Unrelated(p: Path, q: Path) {
    p != [] && q != [] && (p[0] == q[0] ==> Unrelated(p[1..], q[1..]))
  }

  lemma {:induction false} UnrelatedMeans(p: Path, q: Path)
    ensures Unrelated(p, q) <==> !(p <= q) && !(q <= p)
    decreases |p|
  {
    if p != [] && q != [] && p[0] == q[0] {
      UnrelatedMeans(p[1..], q[1..]);
      assert p <= q <==> p[1..] <= q[1..] by {
        assert p == [p[0]] + p[1..] && q == [q[0]] + q[1..];
      }
      assert q <= p <==> q[1..] <= p[1..] by {
        assert p == [p[0]] + p[1..] && q == [q[0]] + q[1..];
      }
    }
  }

  function Inner(t: Tree): Tree {
    if t.kind == Document then (if |t.content| > 0 then t.content[0] else BLANK) else t
  }

  /** No mapping with the null tag on the way holds anything that can be read outside the path. */
  ghost predicate Spares(t: Tree, p: Path)
    decreases |p|
  {
    p == [] || SparesInner(Inner(t), p)
  }

  ghost predicate SparesInner(node: Tree, p: Path)
    requires p != []
    decreases |p|, 0
  {
    if node.kind != Mapping then true
    else if node.tag == NULL_TAG then forall q | Unrelated(p, q) :: GetInner(node, q) == ""
    else
      var k := FindKey(node.content, p[0], 0);
      k + 1 < |node.content| ==> Spares(node.content[k + 1], p[1..])
  }

  lemma {:induction false} SetFrame(t: Tree, v: string, p: Path, q: Path)
    requires Even(t) && Spares(t, p) && Set(t, v, p).Some? && Unrelated(p, q)
    ensures Get(Set(t, v, p).value, q) == Get(t, q)
    decreases |p|, 1
  {
    SetFrameInner(Inner(t), v, p, q);
    var t' := SetInner(Inner(t), v, p).value;
    assert t.kind != Document ==> t'.kind != Document;
  }

  lemma {:induction false} SetFrameInner(t: Tree, v: string, p: Path, q: Path)
    requires Unrelated(p, q) && Even(t) && SparesInner(t, p) && SetInner(t, v, p).Some?
    ensures GetInner(SetInner(t, v, p).value, q) == GetInner(t, q)
    decreases |p|, 0
  {
    var m := if IsNull(t) then EMPTY_MAPPING else t;
    assert GetInner(m, q) == GetInner(t, q);
    var k := FindKey(m.content, p[0], 0);
    if k + 1 < |m.content| {
      if p[0] == q[0] {
        SetFrame(m.content[k + 1], v, p[1..], q[1..]);
      }
      ReplaceFrame(m, k, Set(m.content[k + 1], v, p[1..]).value, p[0], q);
    } else {
      if p[0] == q[0] {
        SetFrame(EMPTY_MAPPING, v, p[1..], q[1..]);
      }
      AppendFrame(m, Set(EMPTY_MAPPING, v, p[1..]).value, p[0], q);
    }
  }

  /** What yamlSet loses otherwise. */
  lemma {:induction false} SetLoses(t: Tree, v: string, p: Path) returns (q: Path)
    requires Even(t) && !Spares(t, p) && Set(t, v, p).Some?
    ensures Unrelated(p, q) && Get(Set(t, v, p).value, q) != Get(t, q)
    decreases |p|
  {
    var node := Inner(t);
    var node' := SetInner(node, v, p).value;
    assert node'.kind == Mapping;
    if node.tag == NULL_TAG {
      q :| Unrelated(p, q) && GetInner(node, q) != "";
      SetFrameInner(EMPTY_MAPPING, v, p, q);
    } else {
      var k := FindKey(node.content, p[0], 0);
      var rest := SetLoses(node.content[k + 1], v, p[1..]);
      q := [p[0]] + rest;
      assert q[1..] == rest;
      LossBelow(node, v, p, q, k);
    }
  }

  lemma LossBelow(node: Tree, v: string, p: Path, q: Path, k: nat)
    requires node.kind == Mapping && !IsNull(node) && p != [] && q != [] && p[0] == q[0]
    requires k == FindKey(node.content, p[0], 0) && k + 1 < |node.content| && k % 2 == 0
    requires Set(node.content[k + 1], v, p[1..]).Some?
    requires Get(Set(node.content[k + 1], v, p[1..]).value, q[1..]) != Get(node.content[k + 1], q[1..])
    ensures GetInner(SetInner(node, v, p).value, q) != GetInner(node, q)
  {
    FindKeyUpdate(node.content, p[0], 0, k + 1, Set(node.content[k + 1], v, p[1..]).value);
  }

  /** Exactly when yamlSet leaves every unrelated path as it was. */
  lemma FrameIff(t: Tree, v: string, p: Path)
    requires Even(t) && Set(t, v, p).Some?
    ensures (forall q | Unrelated(p, q) :: Get(Set(t, v, p).value, q) == Get(t, q)) <==> Spares(t, p)
  {
    if Spares(t, p) {
      forall q | Unrelated(p, q)
        ensures Get(Set(t, v, p).value, q) == Get(t, q)
      {
        SetFrame(t, v, p, q);
      }
    } else {
      var q := SetLoses(t, v, p);
    }
  }

  /** In particular for every tree without explicit null tags on mappings. */
  lemma {:induction false} WellFormedSpares(t: Tree, p: Path)
    requires WellFormed(t)
    ensures Even(t) && Spares(t, p)
    decreases |p|
  {
    WellFormedIsEven(t);
    if p != [] && Inner(t).kind == Mapping {
      var node := Inner(t);
      var k := FindKey(node.content, p[0], 0);
      if k + 1 < |node.content| {
        WellFormedSpares(node.content[k + 1], p[1..]);
      }
    }
  }

  lemma {:induction false} WellFormedIsEven(t: Tree)
    requires WellFormed(t)
    ensures Even(t)
  {
    forall i | 0 <= i < |t.content|
      ensures Even(t.content[i])
    {
      WellFormedIsEven(t.content[i]);
    }
  }

  /** Replacing the value of one key is seen only under that key. */
  lemma ReplaceFrame(m: Tree, k: nat, child: Tree, key: string, q: Path)
    requires m.kind == Mapping && k == FindKey(m.content, key, 0) && k + 1 < |m.content| && q != []
    requires q[0] == key ==> Get(child, q[1..]) == Get(m.content[k + 1], q[1..])
    ensures GetInner(m.(content := m.content[k + 1 := child]), q) == GetInner(m, q)
  {
    ValueBeside(m.content, k, child, key, q[0]);
  }

  /** Appending a key that was absent is seen only under that key. */
  lemma AppendFrame(m: Tree, child: Tree, key: string, q: Path)
    requires m.kind == Mapping && |m.content| % 2 == 0 && FindKey(m.content, key, 0) == |m.content| && q != []
    requires q[0] == key ==> Get(child, q[1..]) == ""
    ensures GetInner(m.(content := m.content + [KeyNode(key), child]), q) == GetInner(m, q)
  {
    FindKeyAppend(m.content, q[0], 0, key, child);
  }

  /** Without the condition on null tags the promise fails: such a mapping is emptied on the way. */
  lemma NullTaggedMappingIsLost()
    ensures
      var t := Tree(Mapping, NULL_TAG, "", [KeyNode("a"), KeyNode("x")]);
      && Even(t) && Unrelated(["b"], ["a"]) && Get(t, ["a"]) == "x"
      && Set(t, "y", ["b"]).Some? && Get(Set(t, "y", ["b"]).value, ["a"]) == ""
  {
    var t := Tree(Mapping, NULL_TAG, "", [KeyNode("a"), KeyNode("x")]);
    assert FindKey(t.content, "a", 0) == 0;
    assert Get(t, ["a"]) == Get(t.content[1], []);
    var t' := Set(t, "y", ["b"]).value;
    assert ["b"][1..] == [];
    assert t'.content == [KeyNode("b"), Tree(Scalar, "!!str", "y", [])];
    assert FindKey(t'.content, "a", 0) == 2;
  }

  // ---------------------------------------------------- well-formedness kept

  lemma {:induction false} SetKeepsShape(t: Tree, v: string, path: Path)
    requires Set(t, v, path).Some?
    ensures Even(t) ==> Even(Set(t, v, path).value)
    ensures WellFormed(t) ==> WellFormed(Set(t, v, path).value)
    decreases |path|, 1
  {
    SetInnerKeepsShape(if t.kind == Document then (if |t.content| > 0 then t.content[0] else BLANK) else t, v, path);
  }

  lemma {:induction false} SetInnerKeepsShape(t: Tree, v: string, path: Path)
    requires SetInner(t, v, path).Some?
    ensures Even(t) ==> Even(SetInner(t, v, path).value)
    ensures WellFormed(t) ==> WellFormed(SetInner(t, v, path).value)
    decreases |path|, 0
  {
    if path != [] {
      var m := if IsNull(t) then EMPTY_MAPPING else t;
      var k := FindKey(m.content, path[0], 0);
      SetKeepsShape(if k + 1 < |m.content| then m.content[k + 1] else EMPTY_MAPPING, v, path[1..]);
    }
  }

  // -------------------------------------------------------------- the errors

  /** The node a path leads to through existing keys. */
  function NodeAt(t: Tree, path: Path): Option<Tree>
    decreases |path|
  {
    var node := if t.kind == Document then (if |t.content| > 0 then t.content[0] else BLANK) else t;
    if path == [] then Some(node)
    else if IsNull(node) || node.kind != Mapping then None
    else
      var k := FindKey(node.content, path[0], 0);
      if k + 1 < |node.content| then NodeAt(node.content[k + 1], path[1..]) else None
  }

  predicate Blocks(node: Option<Tree>) {
    node.Some? && !IsNull(node.value) && node.value.kind != Mapping
  }

  ghost predicate Blocked(t: Tree, path: Path) {
    exists n :: 0 <= n < |path| && Blocks(NodeAt(t, path[..n]))
  }

  /** Without an existing value under the first key nothing further down can block. */
  lemma BlockedHere(t: Tree, node: Tree, path: Path)
    requires node == if t.kind == Document then (if |t.content| > 0 then t.content[0] else BLANK) else t
    requires path != []
    requires IsNull(node) || node.kind != Mapping || FindKey(node.content, path[0], 0) + 1 >= |node.content|
    ensures Blocked(t, path) <==> Blocks(Some(node))
  {
    assert path[..0] == [] && NodeAt(t, path[..0]) == Some(node);
    forall n | 0 < n < |path|
      ensures NodeAt(t, path[..n]) == None
    {
      assert path[..n][0] == path[0];
    }
  }

  /** Below an existing value the question is the same one for that value. */
  lemma BlockedBelow(t: Tree, node: Tree, path: Path, k: nat)
    requires node == if t.kind == Document then (if |t.content| > 0 then t.content[0] else BLANK) else t
    requires path != [] && !IsNull(node) && node.kind == Mapping
    requires k == FindKey(node.content, path[0], 0) && k + 1 < |node.content|
    ensures Blocked(t, path) <==> Blocked(node.content[k + 1], path[1..])
  {
    var child := node.content[k + 1];
    assert path[..0] == [] && NodeAt(t, path[..0]) == Some(node);
    forall n | 0 < n < |path|
      ensures NodeAt(t, path[..n]) == NodeAt(child, path[1..][..n - 1])
    {
      assert path[..n][1..] == path[1..][..n - 1] && path[..n][0] == path[0];
    }
    if Blocked(child, path[1..]) {
      var n :| 0 <= n < |path[1..]| && Blocks(NodeAt(child, path[1..][..n]));
      assert Blocks(NodeAt(t, path[..n + 1]));
    }
  }

  /** yamlSet fails exactly when a proper prefix of the path names something that is neither null nor an object. */
  lemma {:induction false} SetFailsIff(t: Tree, v: string, path: Path)
    ensures Set(t, v, path).None? <==> Blocked(t, path)
    decreases |path|
  {
    var node := if t.kind == Document then (if |t.content| > 0 then t.content[0] else BLANK) else t;
    if path != [] {
      SetOnEmpty(v, path[1..]);
      var k := FindKey(node.content, path[0], 0);
      if IsNull(node) || node.kind != Mapping || k + 1 >= |node.content| {
        BlockedHere(t, node, path);
      } else {
        BlockedBelow(t, node, path, k);
        SetFailsIff(node.content[k + 1], v, path[1..]);
      }
    }
  }

  /** Where yamlString reads something, yamlSet succeeds. */
  lemma {:induction false} SetWhereGet(t: Tree, v: string, path: Path)
    requires Get(t, path) != ""
    ensures Set(t, v, path).Some?
    decreases |path|
  {
    if path != [] {
      var node := if t.kind == Document && |t.content| > 0 then t.content[0] else t;
      var k := FindKey(node.content, path[0], 0);
      SetOnEmpty(v, path[1..]);
      if !IsNull(node) {
        SetWhereGet(node.content[k + 1], v, path[1..]);
      }
    }
  }
  // ---------------------------------------------------------- whole nodes

  /** After a successful yamlSet the path leads to a string scalar that holds the value and nothing else. */
  lemma {:induction false} NodeAfterSet(t: Tree, v: string, path: Path)
    requires Even(t) && Set(t, v, path).Some?
    ensures NodeAt(Set(t, v, path).value, path) == Some(Tree(Scalar, "!!str", v, []))
    decreases |path|, 1
  {
    if path != [] {
      var m := if IsNull(Inner(t)) then EMPTY_MAPPING else Inner(t);
      NodeAfterSetInner(m, v, path);
      SameInside(Set(t, v, path).value, SetInner(m, v, path).value, path);
    }
  }

  lemma {:induction false} NodeAfterSetInner(m: Tree, v: string, path: Path)
    requires path != [] && Even(m) && !IsNull(m) && m.kind == Mapping && SetInner(m, v, path).Some?
    ensures SetInner(m, v, path).value.kind == Mapping
    ensures NodeAt(SetInner(m, v, path).value, path) == Some(Tree(Scalar, "!!str", v, []))
    decreases |path|, 0
  {
    var k := FindKey(m.content, path[0], 0);
    SetLeads(m, v, path, path);
    NodeAfterSet(if k + 1 < |m.content| then m.content[k + 1] else EMPTY_MAPPING, v, path[1..]);
  }

  /** A document leads where its content leads. */
  lemma SameInside(t: Tree, inner: Tree, path: Path)
    requires path != [] && Inner(t) == inner && inner.kind == Mapping
    ensures NodeAt(t, path) == NodeAt(inner, path)
  {
  }

  lemma NodeReplaced(m: Tree, k: nat, child: Tree, path: Path)
    requires m.kind == Mapping && !IsNull(m) && path != [] && k == FindKey(m.content, path[0], 0) && k + 1 < |m.content|
    ensures NodeAt(m.(content := m.content[k + 1 := child]), path) == NodeAt(child, path[1..])
  {
    FindKeyUpdate(m.content, path[0], 0, k + 1, child);
  }

  lemma NodeAppended(m: Tree, child: Tree, path: Path)
    requires m.kind == Mapping && !IsNull(m) && |m.content| % 2 == 0 && path != []
    requires FindKey(m.content, path[0], 0) == |m.content|
    ensures NodeAt(m.(content := m.content + [KeyNode(path[0]), child]), path) == NodeAt(child, path[1..])
  {
    FindKeyAppend(m.content, path[0], 0, path[0], child);
  }

  /** A node above the one that was set: a mapping with its own tag and keys as before, or a new mapping. */
  ghost predicate Above(before: Option<Tree>, m: Tree) {
    && m.kind == Mapping
    && if before.Some? && !IsNull(before.value) then
         && m.tag == before.value.tag && m.value == before.value.value && |before.value.content| <= |m.content|
         && forall i | 0 <= i < |before.value.content| && i % 2 == 0 :: m.content[i] == before.value.content[i]
       else m.tag == "!!map" && m.value == ""
  }

  lemma {:induction false} NodesAbove(t: Tree, v: string, path: Path, n: nat)
    requires Even(t) && Set(t, v, path).Some? && n < |path|
    ensures NodeAt(Set(t, v, path).value, path[..n]).Some?
    ensures Above(NodeAt(t, path[..n]), NodeAt(Set(t, v, path).value, path[..n]).value)
    decreases n
  {
    var m := if IsNull(Inner(t)) then EMPTY_MAPPING else Inner(t);
    if n == 0 {
      assert path[..0] == [];
      RootAbove(m, v, path);
    } else {
      var k := FindKey(m.content, path[0], 0);
      assert path[..n][0] == path[0] && path[..n][1..] == path[1..][..n - 1];
      SameInside(Set(t, v, path).value, SetInner(m, v, path).value, path[..n]);
      NodesAbove(if k + 1 < |m.content| then m.content[k + 1] else EMPTY_MAPPING, v, path[1..], n - 1);
      SetLeads(m, v, path, path[..n]);
    }
  }

  lemma RootAbove(m: Tree, v: string, path: Path)
    requires path != [] && Even(m) && !IsNull(m) && SetInner(m, v, path).Some?
    ensures Above(Some(m), SetInner(m, v, path).value)
  {
  }

  /** Below the first key the path leads through the value that was set there. */
  lemma SetLeads(m: Tree, v: string, path: Path, q: Path)
    requires Even(m) && !IsNull(m) && m.kind == Mapping && SetInner(m, v, path).Some?
    requires path != [] && q != [] && q[0] == path[0]
    ensures var k := FindKey(m.content, path[0], 0);
      var child := if k + 1 < |m.content| then m.content[k + 1] else EMPTY_MAPPING;
      Set(child, v, path[1..]).Some? && NodeAt(SetInner(m, v, path).value, q) == NodeAt(Set(child, v, path[1..]).value, q[1..])
  {
    var k := FindKey(m.content, path[0], 0);
    if k + 1 < |m.content| {
      NodeReplaced(m, k, Set(m.content[k + 1], v, path[1..]).value, q);
    } else {
      NodeAppended(m, Set(EMPTY_MAPPING, v, path[1..]).value, q);
    }
  }

  /** Every unrelated path leads to the very same tree as before, or to nothing as before. */
  lemma {:induction false} NodeFrame(t: Tree, v: string, p: Path, q: Path)
    requires WellFormed(t) && Set(t, v, p).Some? && Unrelated(p, q)
    ensures NodeAt(Set(t, v, p).value, q) == NodeAt(t, q)
    decreases |p|
  {
    var node := Inner(t);
    var m := if IsNull(node) then EMPTY_MAPPING else node;
    WellFormedIsEven(t);
    var k := FindKey(m.content, p[0], 0);
    if k + 1 < |m.content| {
      if p[0] == q[0] {
        NodeFrame(m.content[k + 1], v, p[1..], q[1..]);
      }
      NodeBeside(m, k, Set(m.content[k + 1], v, p[1..]).value, p[0], q);
    } else {
      if p[0] == q[0] {
        NodeFrame(EMPTY_MAPPING, v, p[1..], q[1..]);
      }
      NodeBefore(m, Set(EMPTY_MAPPING, v, p[1..]).value, p[0], q);
    }
    SameInside(Set(t, v, p).value, SetInner(node, v, p).value, q);
    assert NodeAt(t, q) == NodeAt(m, q);
  }

  /** Replacing the value of one key is seen only under that key. */
  lemma NodeBeside(m: Tree, k: nat, child: Tree, key: string, q: Path)
    requires m.kind == Mapping && !IsNull(m) && k == FindKey(m.content, key, 0) && k + 1 < |m.content| && q != []
    requires q[0] == key ==> NodeAt(child, q[1..]) == NodeAt(m.content[k + 1], q[1..])
    ensures NodeAt(m.(content := m.content[k + 1 := child]), q) == NodeAt(m, q)
  {
    ValueBeside(m.content, k, child, key, q[0]);
  }

  /** Appending a key that was absent is seen only under that key. */
  lemma NodeBefore(m: Tree, child: Tree, key: string, q: Path)
    requires m.kind == Mapping && !IsNull(m) && |m.content| % 2 == 0 && FindKey(m.content, key, 0) == |m.content| && q != []
    requires q[0] == key ==> NodeAt(child, q[1..]) == None
    ensures NodeAt(m.(content := m.content + [KeyNode(key), child]), q) == NodeAt(m, q)
  {
    FindKeyAppend(m.content, q[0], 0, key, child);
  }
}

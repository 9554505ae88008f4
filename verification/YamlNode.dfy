/**
 yamlSet and yamlString on the heap: node objects updated in place, proved equal to the
 functions of `YamlTree`.  `Valid` says that the nodes form a tree without sharing or cycles.
 */
module YamlNode {
  import opened Prelude
  import opened YamlTree

  class Node {
    var kind: Kind
    var tag: string
    var value: string
    var content: seq<Node>
    ghost var repr: set<Node>
    ghost var tree: Tree

    constructor (kind: Kind, tag: string, value: string)
      ensures Valid() && fresh(repr) && tree == Tree(kind, tag, value, [])
    {
      this.kind, this.tag, this.value, content := kind, tag, value, [];
      repr := {this};
      tree := Tree(kind, tag, value, []);
    }

    ghost predicate Valid()
      reads this, repr
      decreases repr
    {
      && this in repr
      && (forall i | 0 <= i < |content| ::
            content[i] in repr && content[i].repr <= repr && this !in content[i].repr && content[i].Valid())
      && (forall i, j | 0 <= i < j < |content| :: content[i].repr !! content[j].repr)
      && tree.kind == kind && tree.tag == tag && tree.value == value && |tree.content| == |content|
      && (forall i | 0 <= i < |content| :: tree.content[i] == content[i].tree)
    }

    /** yamlString. */
    method YamlString(path: Path) returns (s: string)
      requires Valid()
      ensures s == Get(tree, path)
      decreases |path|
    {
      var node := this;
      if kind == Document && |content| > 0 {
        node := content[0];
      }
      if path == [] {
        return node.value;
      }
      if node.kind != Mapping {
        return "";
      }
      var i := 0;
      while i + 1 < |node.content|
        invariant i % 2 == 0 && i <= |node.content|
        invariant FindKey(node.tree.content, path[0], 0) == FindKey(node.tree.content, path[0], i)
      {
        assert node.content[i].Valid();
        if node.content[i].value == path[0] {
          s := node.content[i + 1].YamlString(path[1..]);
          return;
        }
        i := i + 2;
      }
      return "";
    }

    /** yamlSet with the node already unwrapped from its document. */
    method SetInner(v: string, path: Path) returns (ok: bool)
      requires Valid() && Even(tree)
      modifies repr
      ensures ok <==> YamlTree.SetInner(old(tree), v, path).Some?
      ensures Valid() && fresh(repr - old(repr))
      ensures tree == if ok then YamlTree.SetInner(old(tree), v, path).value else old(tree)
      decreases |path|, 0
    {
      if path == [] {
        kind, tag, value, content := Scalar, "!!str", v, [];
        tree := Tree(Scalar, "!!str", v, []);
        return true;
      }
      if kind == Zero || tag == NULL_TAG {
        kind, tag, value, content := Mapping, "!!map", "", [];
        tree := EMPTY_MAPPING;
        SetOnEmpty(v, path);
      }
      if kind != Mapping {
        return false;
      }
      assert path == [path[0]] + path[1..];
      ok := SetKey(path[0], v, path[1..]);
    }

    /** The search for the key in an object. */
    method SearchKey(key: string) returns (i: nat)
      requires Valid() && Even(tree) && kind == Mapping
      ensures i == FindKey(tree.content, key, 0)
    {
      i := 0;
      while i < |content|
        invariant i % 2 == 0 && i <= |content|
        invariant FindKey(tree.content, key, 0) == FindKey(tree.content, key, i)
      {
        assert content[i].Valid();
        if content[i].value == key {
          return;
        }
        i := i + 2;
      }
    }

    /** The part of yamlSet that works on an object. */
    method SetKey(key: string, v: string, path: Path) returns (ok: bool)
      requires Valid() && Even(tree) && kind == Mapping && !IsNull(tree)
      modifies repr
      ensures ok <==> YamlTree.SetInner(old(tree), v, [key] + path).Some?
      ensures Valid() && fresh(repr - old(repr))
      ensures tree == if ok then YamlTree.SetInner(old(tree), v, [key] + path).value else old(tree)
      decreases |path|, 4
    {
      assert ([key] + path)[1..] == path;
      var i := SearchKey(key);
      if i < |content| {
        ok := SetChild(i + 1, v, path);
      } else {
        ok := AppendChild(key, v, path);
      }
    }

    /** After a change inside one child, the children still share nothing. */
    twostate lemma StillApart(at: nat)
      requires old(Valid()) && content == old(content) && at < |content|
      requires fresh(content[at].repr - old(content[at].repr))
      requires forall i | 0 <= i < |content| && i != at :: content[i].repr == old(content[i].repr)
      ensures forall i, j | 0 <= i < j < |content| :: content[i].repr !! content[j].repr
    {
    }

    /** The recursive call on a value that exists. */
    method SetChild(at: nat, v: string, path: Path) returns (ok: bool)
      requires Valid() && Even(tree) && at < |content|
      modifies repr
      ensures ok <==> YamlTree.Set(old(tree).content[at], v, path).Some?
      ensures Valid() && fresh(repr - old(repr))
      ensures tree == if ok
        then old(tree).(content := old(tree).content[at := YamlTree.Set(old(tree).content[at], v, path).value])
        else old(tree)
      decreases |path|, 3
    {
      var child := content[at];
      ok := child.YamlSet(v, path);
      StillApart(at);
      repr := repr + child.repr;
      tree := tree.(content := tree.content[at := child.tree]);
    }

    /** The recursive call on a fresh value appended with its key. */
    method AppendChild(key: string, v: string, path: Path) returns (ok: bool)
      requires Valid() && Even(tree)
      modifies this
      ensures ok
      ensures Valid() && fresh(repr - old(repr))
      ensures YamlTree.Set(EMPTY_MAPPING, v, path).Some?
      ensures tree == old(tree).(content := old(tree).content + [KeyNode(key), YamlTree.Set(EMPTY_MAPPING, v, path).value])
      decreases |path|, 3
    {
      SetOnEmpty(v, path);
      var child := new Node(Mapping, "!!map", "");
      var name := new Node(Scalar, "!!str", key);
      ok := child.YamlSet(v, path);
      Attach(name);
      Attach(child);
    }

    /** One more child, disjoint from the tree so far. */
    method Attach(node: Node)
      requires Valid() && node.Valid() && node.repr !! repr
      modifies this
      ensures Valid() && repr == old(repr) + node.repr && content == old(content) + [node]
      ensures tree == old(tree).(content := old(tree).content + [node.tree])
    {
      content := content + [node];
      repr := repr + node.repr;
      tree := tree.(content := tree.content + [node.tree]);
    }

    /** yamlSet: on an error the whole tree is as before. */
    method YamlSet(v: string, path: Path) returns (ok: bool)
      requires Valid() && Even(tree)
      modifies repr
      ensures ok <==> YamlTree.Set(old(tree), v, path).Some?
      ensures Valid() && fresh(repr - old(repr))
      ensures tree == if ok then YamlTree.Set(old(tree), v, path).value else old(tree)
      decreases |path|, 2
    {
      if kind != Document {
        ok := SetInner(v, path);
      } else if |content| == 0 {
        ok := SetFirst(v, path);
      } else {
        ok := SetRoot(v, path);
      }
    }

    /** An empty document receives its root first. */
    method SetFirst(v: string, path: Path) returns (ok: bool)
      requires Valid() && content == []
      modifies this
      ensures ok && YamlTree.SetInner(BLANK, v, path).Some?
      ensures Valid() && fresh(repr - old(repr))
      ensures tree == old(tree).(content := [YamlTree.SetInner(BLANK, v, path).value])
      decreases |path|, 1
    {
      if path != [] {
        SetOnEmpty(v, path[1..]);
      }
      var blank := new Node(Zero, "", "");
      ok := blank.SetInner(v, path);
      Attach(blank);
      assert [] + [blank.tree] == [blank.tree];
    }

    /** The root of a document that has one. */
    method SetRoot(v: string, path: Path) returns (ok: bool)
      requires Valid() && Even(tree) && content != []
      modifies repr
      ensures ok <==> YamlTree.SetInner(old(tree).content[0], v, path).Some?
      ensures Valid() && fresh(repr - old(repr))
      ensures tree == if ok
        then old(tree).(content := old(tree).content[0 := YamlTree.SetInner(old(tree).content[0], v, path).value])
        else old(tree)
      decreases |path|, 1
    {
      var node := content[0];
      ok := node.SetInner(v, path);
      repr := repr + node.repr;
      tree := tree.(content := tree.content[0 := node.tree]);
    }
  }
}

/**
 Eager loading of edges: one extra query per edge, joined to the nodes in memory with a hash map.
 The one-to-many and the many-to-one loader are each proved equal to the plain nested-loop join,
 for every list of nodes and every list of rows the query may return.
 */
module EagerLoad {
  import opened Prelude

  type Id = int

  datatype LoadError = QueryFailed | NilForeignKey | UnexpectedForeignKey(fk: Id)

  /** A fetched row: its foreign-key column and the entity scanned from it. */
  datatype Row<E> = Row(fk: Option<Id>, entity: E)

  /** The to-many edge of the node with the given id, such as children or role_menus. */
  class Many<E> {
    const owner: Id
    var edge: seq<Row<E>>

    constructor (owner: Id)
      ensures this.owner == owner && edge == []
    {
      this.owner, edge := owner, [];
    }
  }

  /** The to-one edge of a node with the given foreign key, such as parent or menu. */
  class One<E> {
    const fk: Option<Id>
    var edge: Option<E>

    constructor (fk: Option<Id>)
      ensures this.fk == fk && edge == None
    {
      this.fk, edge := fk, None;
    }
  }

  ghost predicate NoAlias<C>(nodes: seq<C>) {
    forall i, j | 0 <= i < j < |nodes| :: nodes[i] != nodes[j]
  }

  // ------------------------------------------------------------- one to many

  /** The ids the query is asked for. */
  function Owners<E>(nodes: seq<Many<E>>): (ids: seq<Id>)
    ensures |ids| == |nodes| && forall i | 0 <= i < |ids| :: ids[i] == nodes[i].owner
  {
    seq(|nodes|, i requires 0 <= i < |nodes| => nodes[i].owner)
  }

  ghost predicate DistinctIds(ids: seq<Id>) {
    forall i, j | 0 <= i < j < |ids| :: ids[i] != ids[j]
  }

  /** The nested-loop join: the rows whose foreign key is `id`, in query order. */
  function Referring<E>(rows: seq<Row<E>>, id: Id): (r: seq<Row<E>>) {
    Filter((row: Row<E>) => row.fk == Some(id), rows)
  }

  predicate Placed<E>(row: Row<E>, ids: seq<Id>) {
    row.fk.Some? && row.fk.value in ids
  }

  ghost predicate AllPlaced<E>(rows: seq<Row<E>>, ids: seq<Id>) {
    forall k | 0 <= k < |rows| :: Placed(rows[k], ids)
  }

  lemma AllPlacedStep<E>(rows: seq<Row<E>>, k: nat, ids: seq<Id>)
    requires k < |rows| && AllPlaced(rows[..k], ids) && Placed(rows[k], ids)
    ensures AllPlaced(rows[..k + 1], ids)
  {
    var more := rows[..k + 1];
    forall m | 0 <= m < |more|
      ensures Placed(more[m], ids)
    {
      if m < k {
        assert Placed(rows[..k][m], ids);
      }
    }
  }

  function LastIndex(ids: seq<Id>, id: Id): (i: nat)
    requires id in ids
    ensures i < |ids| && ids[i] == id && id !in ids[i + 1..]
  {
    if ids[|ids| - 1] == id then |ids| - 1
    else
      var i := LastIndex(ids[..|ids| - 1], id);
      assert ids[i + 1..] == ids[..|ids| - 1][i + 1..] + [ids[|ids| - 1]];
      i
  }

  /** What node `i` ends up with: with repeated ids the hash map keeps the last node of each. */
  ghost function Joined<E>(ids: seq<Id>, i: nat, rows: seq<Row<E>>): seq<Row<E>>
    requires i < |ids|
  {
    if i == LastIndex(ids, ids[i]) then Referring(rows, ids[i]) else []
  }

  lemma JoinedStep<E>(ids: seq<Id>, i: nat, rows: seq<Row<E>>, k: nat)
    requires i < |ids| && k < |rows|
    ensures Joined(ids, i, rows[..k + 1]) ==
      if rows[k].fk == Some(ids[i]) && i == LastIndex(ids, ids[i]) then Joined(ids, i, rows[..k]) + [rows[k]]
      else Joined(ids, i, rows[..k])
  {
    assert rows[..k + 1][..k] == rows[..k];
  }

  lemma DistinctLastIndex(ids: seq<Id>, i: nat)
    requires DistinctIds(ids) && i < |ids|
    ensures LastIndex(ids, ids[i]) == i
  {
  }

  /** The first loop: empty edges and the hash map from id to node. */
  method IndexNodes<E>(nodes: seq<Many<E>>) returns (nodeids: map<Id, Many<E>>)
    requires NoAlias(nodes)
    modifies nodes
    ensures forall i | 0 <= i < |nodes| :: nodes[i].edge == []
    ensures forall id :: id in nodeids <==> id in Owners(nodes)
    ensures forall id | id in nodeids :: nodeids[id] == nodes[LastIndex(Owners(nodes), id)]
  {
    ghost var ids := Owners(nodes);
    nodeids := map[];
    for i := 0 to |nodes|
      invariant forall j | 0 <= j < i :: nodes[j].edge == []
      invariant forall id :: id in nodeids <==> id in ids[..i]
      invariant forall id | id in nodeids :: nodeids[id] == nodes[LastIndex(ids[..i], id)]
    {
      assert ids[..i + 1] == ids[..i] + [ids[i]] && ids[..i + 1][..i] == ids[..i];
      nodeids := nodeids[nodes[i].owner := nodes[i]];
      nodes[i].edge := [];
    }
    assert ids[..|nodes|] == ids;
  }

  /** One turn of the second loop: append the row to the node its foreign key names. */
  method Assign<E>(nodes: seq<Many<E>>, nodeids: map<Id, Many<E>>, row: Row<E>) returns (err: Option<LoadError>)
    requires NoAlias(nodes)
    requires forall id :: id in nodeids <==> id in Owners(nodes)
    requires forall id | id in nodeids :: nodeids[id] == nodes[LastIndex(Owners(nodes), id)]
    modifies nodes
    ensures err.None? <==> Placed(row, Owners(nodes))
    ensures err != Some(QueryFailed)
    ensures err.None? ==> forall i | 0 <= i < |nodes| ::
      nodes[i].edge ==
      if i == LastIndex(Owners(nodes), row.fk.value) then old(nodes[i].edge) + [row] else old(nodes[i].edge)
  {
    if row.fk.None? {
      return Some(NilForeignKey);
    }
    if row.fk.value !in nodeids {
      return Some(UnexpectedForeignKey(row.fk.value));
    }
    var node := nodeids[row.fk.value];
    assert node == nodes[LastIndex(Owners(nodes), row.fk.value)];
    node.edge := node.edge + [row];
    return None;
  }

  /** Every node holds the join with these rows. */
  ghost predicate HoldsJoin<E>(nodes: seq<Many<E>>, rows: seq<Row<E>>)
    reads nodes
  {
    forall i | 0 <= i < |nodes| :: nodes[i].edge == Joined(Owners(nodes), i, rows)
  }

  /** One row more, for one node. */
  lemma JoinedAfter<E>(ids: seq<Id>, i: nat, rows: seq<Row<E>>, k: nat, before: seq<Row<E>>, after: seq<Row<E>>)
    requires i < |ids| && k < |rows| && Placed(rows[k], ids) && before == Joined(ids, i, rows[..k])
    requires after == if i == LastIndex(ids, rows[k].fk.value) then before + [rows[k]] else before
    ensures after == Joined(ids, i, rows[..k + 1])
  {
    JoinedStep(ids, i, rows, k);
  }

  method AssignNext<E>(nodes: seq<Many<E>>, nodeids: map<Id, Many<E>>, rows: seq<Row<E>>, k: nat)
    returns (err: Option<LoadError>)
    requires NoAlias(nodes) && k < |rows| && HoldsJoin(nodes, rows[..k])
    requires forall id :: id in nodeids <==> id in Owners(nodes)
    requires forall id | id in nodeids :: nodeids[id] == nodes[LastIndex(Owners(nodes), id)]
    modifies nodes
    ensures err != Some(QueryFailed) && (err.None? <==> Placed(rows[k], Owners(nodes)))
    ensures err.None? ==> HoldsJoin(nodes, rows[..k + 1])
  {
    err := Assign(nodes, nodeids, rows[k]);
    if err.None? {
      forall i | 0 <= i < |nodes|
        ensures nodes[i].edge == Joined(Owners(nodes), i, rows[..k + 1])
      {
        JoinedAfter(Owners(nodes), i, rows, k, old(nodes[i].edge), nodes[i].edge);
      }
    }
  }

  /** The second loop: every row to its node, up to the first row that has none. */
  method AssignRows<E>(nodes: seq<Many<E>>, nodeids: map<Id, Many<E>>, rows: seq<Row<E>>) returns (err: Option<LoadError>)
    requires NoAlias(nodes) && forall i | 0 <= i < |nodes| :: nodes[i].edge == []
    requires forall id :: id in nodeids <==> id in Owners(nodes)
    requires forall id | id in nodeids :: nodeids[id] == nodes[LastIndex(Owners(nodes), id)]
    modifies nodes
    ensures err != Some(QueryFailed)
    ensures err.None? <==> AllPlaced(rows, Owners(nodes))
    ensures err.None? ==> HoldsJoin(nodes, rows)
  {
    for k := 0 to |rows|
      invariant AllPlaced(rows[..k], Owners(nodes)) && HoldsJoin(nodes, rows[..k])
    {
      err := AssignNext(nodes, nodeids, rows, k);
      if err.Some? {
        return;
      }
      AllPlacedStep(rows, k, Owners(nodes));
    }
    assert rows[..|rows|] == rows;
    return None;
  }

  /** loadChildren and loadRoleMenus.  `neighbors` is what the query for `Owners(nodes)` returned. */
  method LoadMany<E>(nodes: seq<Many<E>>, neighbors: Option<seq<Row<E>>>)
    returns (err: Option<LoadError>)
    requires NoAlias(nodes)
    modifies nodes
    ensures err == Some(QueryFailed) <==> neighbors.None?
    ensures neighbors.Some? ==> (err.None? <==> AllPlaced(neighbors.value, Owners(nodes)))
    ensures err.None? ==> forall i | 0 <= i < |nodes| ::
      nodes[i].edge == Joined(Owners(nodes), i, neighbors.value)
  {
    var nodeids := IndexNodes(nodes);
    if neighbors.None? {
      return Some(QueryFailed);
    }
    err := AssignRows(nodes, nodeids, neighbors.value);
  }

  // ------------------------------------------- one to many, on a whole table

  /** The rows an `IN (ids)` predicate lets through. */
  function WhereIn<E>(table: seq<Row<E>>, ids: seq<Id>): seq<Row<E>> {
    Filter((row: Row<E>) => Placed(row, ids), table)
  }

  lemma {:induction false} WhereInPlaced<E>(table: seq<Row<E>>, ids: seq<Id>)
    ensures AllPlaced(WhereIn(table, ids), ids)
  {
    var rows := WhereIn(table, ids);
    forall k | 0 <= k < |rows|
      ensures Placed(rows[k], ids)
    {
      assert rows[k] in rows;
    }
  }

  lemma {:induction false} WhereInReferring<E>(table: seq<Row<E>>, ids: seq<Id>, id: Id)
    requires id in ids
    ensures Referring(WhereIn(table, ids), id) == Referring(table, id)
  {
    if table != [] {
      var init, last := table[..|table| - 1], table[|table| - 1];
      WhereInReferring(init, ids, id);
      if Placed(last, ids) {
        var rows := WhereIn(table, ids);
        assert rows == WhereIn(init, ids) + [last];
        assert rows[..|rows| - 1] == WhereIn(init, ids);
      }
    }
  }

  /** With an honest IN query and distinct node ids, eager loading fails only when the query does, and every
      node receives exactly the rows of the table that refer to it, in table order. */
  method LoadManyFrom<E>(nodes: seq<Many<E>>, table: seq<Row<E>>, answers: bool) returns (err: Option<LoadError>)
    requires NoAlias(nodes) && DistinctIds(Owners(nodes))
    modifies nodes
    ensures err == if answers then None else Some(QueryFailed)
    ensures answers ==> forall i | 0 <= i < |nodes| :: nodes[i].edge == Referring(table, nodes[i].owner)
  {
    WhereInPlaced(table, Owners(nodes));
    err := LoadMany(nodes, if answers then Some(WhereIn(table, Owners(nodes))) else None);
    if answers {
      forall i | 0 <= i < |nodes|
        ensures nodes[i].edge == Referring(table, nodes[i].owner)
      {
        DistinctLastIndex(Owners(nodes), i);
        WhereInReferring(table, Owners(nodes), nodes[i].owner);
      }
    }
  }

  /** Conservation: with distinct ids, the nodes' edges together are the fetched rows, each on one node. */
  lemma {:induction false} EveryRowLandsOnce<E>(ids: seq<Id>, rows: seq<Row<E>>)
    requires DistinctIds(ids) && AllPlaced(rows, ids)
    ensures multiset(rows) == multiset(Concat(ids, rows))
  {
    if rows == [] {
      ConcatEmpty<E>(ids);
    } else {
      var init, last := rows[..|rows| - 1], rows[|rows| - 1];
      assert rows == init + [last];
      assert AllPlaced(init, ids) by {
        forall k | 0 <= k < |init|
          ensures Placed(init[k], ids)
        {
          assert Placed(rows[k], ids);
        }
      }
      EveryRowLandsOnce(ids, init);
      assert Placed(rows[|rows| - 1], ids);
      ConcatStep(ids, init, last);
    }
  }

  /** The edges of all nodes, one after the other. */
  function Concat<E>(ids: seq<Id>, rows: seq<Row<E>>): seq<Row<E>> {
    if ids == [] then [] else Referring(rows, ids[0]) + Concat(ids[1..], rows)
  }

  lemma {:induction false} ConcatEmpty<E>(ids: seq<Id>)
    ensures Concat<E>(ids, []) == []
  {
    if ids != [] {
      ConcatEmpty<E>(ids[1..]);
    }
  }

  lemma {:induction false} ConcatStep<E>(ids: seq<Id>, rows: seq<Row<E>>, row: Row<E>)
    requires DistinctIds(ids) && row.fk.Some?
    ensures multiset(Concat(ids, rows + [row])) ==
      multiset(Concat(ids, rows)) + (if row.fk.value in ids then multiset{row} else multiset{})
  {
    if ids != [] {
      assert (rows + [row])[..|rows|] == rows;
      ConcatStep(ids[1..], rows, row);
      var head := if row.fk == Some(ids[0]) then Referring(rows, ids[0]) + [row] else Referring(rows, ids[0]);
      assert Referring(rows + [row], ids[0]) == head;
      assert row.fk.value in ids <==> row.fk.value == ids[0] || row.fk.value in ids[1..];
    }
  }

  // ------------------------------------------------------------- many to one

  /** The foreign keys to look up: each distinct non-nil one once, in node order. */
  function Wanted<E>(nodes: seq<One<E>>): seq<Id> {
    Distinct(Keys(nodes), (id: Id) => true)
  }

  function Keys<E>(nodes: seq<One<E>>): (keys: seq<Id>)
    ensures forall i | 0 <= i < |nodes| && nodes[i].fk.Some? :: nodes[i].fk.value in keys
    ensures forall id | id in keys :: exists i :: 0 <= i < |nodes| && nodes[i].fk == Some(id)
  {
    if nodes == [] then []
    else
      var init, last := Keys(nodes[..|nodes| - 1]), nodes[|nodes| - 1];
      if last.fk.Some? then init + [last.fk.value] else init
  }

  /** A fetched row of the other side, by its primary key. */
  datatype Keyed<E> = Keyed(id: Id, entity: E)

  /** The lookup by primary key; with a repeated key the last row wins. */
  function Lookup<E>(rows: seq<Keyed<E>>, id: Id): (r: Option<E>)
    ensures r.None? <==> forall k | 0 <= k < |rows| :: rows[k].id != id
    ensures r.Some? ==> exists k :: 0 <= k < |rows| && rows[k] == Keyed(id, r.value)
  {
    if rows == [] then None
    else if rows[|rows| - 1].id == id then Some(rows[|rows| - 1].entity)
    else Lookup(rows[..|rows| - 1], id)
  }

  ghost function LookupKey<E>(rows: seq<Keyed<E>>, fk: Option<Id>): Option<E> {
    if fk.None? then None else Lookup(rows, fk.value)
  }

  lemma LookupStep<E>(rows: seq<Keyed<E>>, k: nat, fk: Option<Id>)
    requires k < |rows|
    ensures LookupKey(rows[..k + 1], fk) == if fk == Some(rows[k].id) then Some(rows[k].entity) else LookupKey(rows[..k], fk)
  {
    assert rows[..k + 1][..k] == rows[..k];
  }

  /** The first loop of loadParent: the nodes grouped by foreign key, and the keys in first-occurrence order. */
  method GroupByKey<E>(nodes: seq<One<E>>) returns (ids: seq<Id>, nodeids: map<Id, seq<One<E>>>)
    ensures ids == Wanted(nodes)
    ensures forall id :: id in nodeids <==> id in ids
    ensures forall id, n | id in nodeids :: n in nodeids[id] <==> n in nodes && n.fk == Some(id)
  {
    ids, nodeids := [], map[];
    for i := 0 to |nodes|
      invariant ids == Wanted(nodes[..i])
      invariant forall id :: id in nodeids <==> id in ids
      invariant forall id, n | id in nodeids :: n in nodeids[id] <==> n in nodes[..i] && n.fk == Some(id)
      invariant forall n | n in nodes[..i] && n.fk.Some? :: n.fk.value in ids
    {
      assert nodes[..i + 1] == nodes[..i] + [nodes[i]] && nodes[..i + 1][..i] == nodes[..i];
      ghost var keys := Keys(nodes[..i]);
      assert (keys + [0])[..|keys|] == keys;
      if nodes[i].fk.None? {
        continue;
      }
      var fk := nodes[i].fk.value;
      assert Keys(nodes[..i + 1]) == keys + [fk] && (keys + [fk])[..|keys|] == keys;
      if fk !in nodeids {
        ids := ids + [fk];
        nodeids := nodeids[fk := []];
      }
      nodeids := nodeids[fk := nodeids[fk] + [nodes[i]]];
    }
    assert nodes[..|nodes|] == nodes;
  }

  method AssignAll<E>(group: seq<One<E>>, entity: E)
    modifies group
    ensures forall n | n in group :: n.edge == Some(entity)
  {
    for i := 0 to |group|
      invariant forall j | 0 <= j < i :: group[j].edge == Some(entity)
    {
      group[i].edge := Some(entity);
    }
  }

  /** One turn of the second loop: the row goes to every node that asked for it. */
  method AssignGroup<E>(nodes: seq<One<E>>, asked: seq<Id>, nodeids: map<Id, seq<One<E>>>, row: Keyed<E>)
    returns (err: Option<LoadError>)
    requires forall id :: id in nodeids <==> id in asked
    requires forall id, n | id in nodeids :: n in nodeids[id] <==> n in nodes && n.fk == Some(id)
    modifies nodes
    ensures err == None <==> row.id in asked
    ensures err != Some(QueryFailed)
    ensures err == None ==> forall i | 0 <= i < |nodes| ::
      nodes[i].edge == if nodes[i].fk == Some(row.id) then Some(row.entity) else old(nodes[i].edge)
  {
    if row.id !in nodeids {
      return Some(UnexpectedForeignKey(row.id));
    }
    var group := nodeids[row.id];
    forall j | 0 <= j < |group|
      ensures group[j] in nodes && group[j].fk == Some(row.id)
    {
      assert group[j] in group;
    }
    AssignAll(group, row.entity);
    return None;
  }

  /** loadParent.  `neighbors` is what the query for the asked ids returned; without ids there is no query. */
  method LoadOne<E>(nodes: seq<One<E>>, neighbors: Option<seq<Keyed<E>>>)
    returns (err: Option<LoadError>, asked: seq<Id>)
    requires forall n | n in nodes :: n.edge == None
    modifies nodes
    ensures asked == Wanted(nodes)
    ensures asked == [] ==> err == None
    ensures asked != [] ==> (err == Some(QueryFailed) <==> neighbors.None?)
    ensures asked != [] && neighbors.Some? ==>
      (err == None <==> forall k | 0 <= k < |neighbors.value| :: neighbors.value[k].id in asked)
    ensures err == None ==> forall i | 0 <= i < |nodes| ::
      nodes[i].edge == LookupKey(if neighbors.Some? then neighbors.value else [], nodes[i].fk)
  {
    var nodeids;
    asked, nodeids := GroupByKey(nodes);
    if asked == [] {
      forall i | 0 <= i < |nodes|
        ensures nodes[i].fk == None
      {
        WantedAll(nodes, i);
      }
      return None, asked;
    }
    if neighbors.None? {
      return Some(QueryFailed), asked;
    }
    var rows := neighbors.value;
    for k := 0 to |rows|
      invariant forall m | 0 <= m < k :: rows[m].id in asked
      invariant forall i | 0 <= i < |nodes| :: nodes[i].edge == LookupKey(rows[..k], nodes[i].fk)
    {
      err := AssignGroup(nodes, asked, nodeids, rows[k]);
      if err.Some? {
        return;
      }
      forall i | 0 <= i < |nodes|
        ensures nodes[i].edge == LookupKey(rows[..k + 1], nodes[i].fk)
      {
        LookupStep(rows, k, nodes[i].fk);
      }
    }
    assert rows[..|rows|] == rows;
    return None, asked;
  }

  /** Every non-nil key is wanted. */
  lemma WantedAll<E>(nodes: seq<One<E>>, i: nat)
    requires i < |nodes|
    ensures nodes[i].fk.Some? ==> nodes[i].fk.value in Wanted(nodes)
  {
    DistinctMeans(Keys(nodes), (id: Id) => true);
  }

  /** The rows with one of these keys. */
  function WithIds<E>(table: seq<Keyed<E>>, ids: seq<Id>): (rows: seq<Keyed<E>>)
    ensures forall k | 0 <= k < |rows| :: rows[k].id in ids
  {
    var rows := Filter((row: Keyed<E>) => row.id in ids, table);
    assert forall k | 0 <= k < |rows| :: rows[k] in rows;
    rows
  }

  /** With an honest IN query, every node receives exactly what a lookup in the whole table finds: the row of
      its key, or nothing when it has no key or the row is filtered out.  Only a query that fails is an error. */
  method LoadOneFrom<E>(nodes: seq<One<E>>, table: seq<Keyed<E>>, answers: bool) returns (err: Option<LoadError>)
    requires forall n | n in nodes :: n.edge == None
    modifies nodes
    ensures err == if Wanted(nodes) == [] || answers then None else Some(QueryFailed)
    ensures err == None ==> forall i | 0 <= i < |nodes| :: nodes[i].edge == LookupKey(table, nodes[i].fk)
  {
    var ids := Wanted(nodes);
    var asked;
    err, asked := LoadOne(nodes, if answers then Some(WithIds(table, ids)) else None);
    if err == None {
      forall i | 0 <= i < |nodes|
        ensures nodes[i].edge == LookupKey(table, nodes[i].fk)
      {
        WantedAll(nodes, i);
        if nodes[i].fk.Some? {
          LookupFiltered(table, ids, nodes[i].fk.value);
        }
      }
    }
  }

  lemma {:induction false} LookupFiltered<E>(table: seq<Keyed<E>>, ids: seq<Id>, id: Id)
    requires id in ids
    ensures Lookup(WithIds(table, ids), id) == Lookup(table, id)
  {
    if table != [] {
      var init, last := table[..|table| - 1], table[|table| - 1];
      LookupFiltered(init, ids, id);
      var rows := WithIds(table, ids);
      if last.id in ids {
        assert rows[..|rows| - 1] == WithIds(init, ids);
      }
    }
  }
}

/**
 LoadPolicyRules: the policy list is the deduplicated join of sys_role, sys_role_menu and
 sys_menu.  The method runs the eager loaders of `EagerLoad` and then the code's own nested
 loops with the `seen` map; the join is stated directly on the tables.
 */
module PolicyRules {
  import opened Prelude
  import opened Protocol
  import opened EagerLoad

  datatype RoleRow = RoleRow(id: Id, code: string, isEnable: bool, deleted: bool)
  datatype RelationRow = RelationRow(roleID: Id, menuID: Id, deleted: bool)
  datatype MenuRow = MenuRow(id: Id, permissionCode: Option<string>, deleted: bool)

  /** The three tables, rows in the order the queries return them. */
  datatype Tables = Tables(roles: seq<RoleRow>, relations: seq<RelationRow>, menus: seq<MenuRow>)

  predicate ActiveRole(r: RoleRow) {
    !r.deleted && r.isEnable
  }

  predicate ActiveMenu(m: MenuRow) {
    !m.deleted && m.permissionCode.Some?
  }

  /** This enabled role has the rule's code and is related to this undeleted menu, whose trimmed permission is
      the rule's and not blank. */
  ghost predicate GrantedThrough(db: Tables, rule: Rule, r: RoleRow, rel: RelationRow, m: MenuRow) {
    && r in db.roles && ActiveRole(r) && r.code == rule.roleCode
    && rel in db.relations && !rel.deleted && rel.roleID == r.id
    && m in db.menus && ActiveMenu(m) && m.id == rel.menuID
    && rule.permissionCode == TrimSpace(m.permissionCode.value) && |rule.permissionCode| > 0
  }

  ghost predicate Grants(db: Tables, rule: Rule) {
    exists r, rel, m :: GrantedThrough(db, rule, r, rel, m)
  }

  // --------------------------------------------------------- the dedup key

  const NUL := '\U{0000}'

  function Key(rule: Rule): string {
    rule.roleCode + [NUL] + rule.permissionCode
  }

  /** A NUL-free role code ends at the first NUL of the key. */
  lemma {:induction false} KeySplits(rule: Rule)
    requires NUL !in rule.roleCode
    ensures NUL in Key(rule) && FirstIndex(Key(rule), NUL) == |rule.roleCode|
    decreases |rule.roleCode|
  {
    assert Key(rule)[|rule.roleCode|] == NUL;
    if rule.roleCode != [] {
      var rest := Rule(rule.roleCode[1..], rule.permissionCode);
      KeySplits(rest);
      assert Key(rule)[1..] == Key(rest);
    }
  }

  lemma KeyInjective(a: Rule, b: Rule)
    requires NUL !in a.roleCode && NUL !in b.roleCode && Key(a) == Key(b)
    ensures a == b
  {
    KeySplits(a);
    KeySplits(b);
    var k, m := Key(a), |a.roleCode|;
    assert a.roleCode == k[..m] && b.roleCode == k[..m];
    assert a.permissionCode == k[m + 1..] && b.permissionCode == k[m + 1..];
  }

  /** Keeping the first rule of each key. */
  function FirstOfKey(rules: seq<Rule>): (r: seq<Rule>)
    ensures forall x | x in r :: x in rules
  {
    if rules == [] then []
    else
      var init, last := FirstOfKey(rules[..|rules| - 1]), rules[|rules| - 1];
      if exists x :: x in init && Key(x) == Key(last) then init else init + [last]
  }

  ghost predicate KeysSeparate(rules: seq<Rule>) {
    forall a, b | a in rules && b in rules && Key(a) == Key(b) :: a == b
  }

  predicate Any(rule: Rule) {
    true
  }

  lemma {:induction false} SeparateKeysDistinct(rules: seq<Rule>)
    requires KeysSeparate(rules)
    ensures FirstOfKey(rules) == Distinct(rules, Any)
  {
    if rules != [] {
      var init, last := rules[..|rules| - 1], rules[|rules| - 1];
      assert forall x | x in init :: x in rules;
      SeparateKeysDistinct(init);
      assert last in rules;
      assert forall x | x in FirstOfKey(init) && Key(x) == Key(last) :: x == last;
    }
  }

  /** Every key of the join is represented in the result. */
  lemma {:induction false} FirstOfKeyCovers(rules: seq<Rule>, rule: Rule)
    requires rule in rules
    ensures exists x :: x in FirstOfKey(rules) && Key(x) == Key(rule)
  {
    var init, last := rules[..|rules| - 1], rules[|rules| - 1];
    if rule in init {
      FirstOfKeyCovers(init, rule);
      var x :| x in FirstOfKey(init) && Key(x) == Key(rule);
      assert x in FirstOfKey(rules);
    } else {
      assert rule == last;
      assert last in FirstOfKey(init) + [last];
    }
  }

  lemma {:induction false} OneOfEachKey(rules: seq<Rule>, a: Rule, b: Rule)
    requires a in FirstOfKey(rules) && b in FirstOfKey(rules) && Key(a) == Key(b)
    ensures a == b
  {
    var init, last := rules[..|rules| - 1], rules[|rules| - 1];
    if a in FirstOfKey(init) && b in FirstOfKey(init) {
      OneOfEachKey(init, a, b);
    }
  }

  /** Nothing of the join is dropped if and only if no two different rules share a key. */
  lemma CompleteIffKeysSeparate(rules: seq<Rule>)
    ensures (forall rule | rule in rules :: rule in FirstOfKey(rules)) <==> KeysSeparate(rules)
  {
    if KeysSeparate(rules) {
      SeparateKeysDistinct(rules);
      DistinctMeans(rules, Any);
    } else {
      var a, b :| a in rules && b in rules && Key(a) == Key(b) && a != b;
      if a in FirstOfKey(rules) && b in FirstOfKey(rules) {
        OneOfEachKey(rules, a, b);
      }
    }
  }

  // ------------------------------------------------------- the loaded graph

  /** A loaded role: its code and, for each of its relations in order, the loaded menu. */
  datatype LoadedRole = LoadedRole(code: string, menus: seq<Option<MenuRow>>)

  function RuleOf(code: string, menu: Option<MenuRow>): Option<Rule> {
    if menu.None? || menu.value.permissionCode.None? || TrimSpace(menu.value.permissionCode.value) == "" then None
    else Some(Rule(code, TrimSpace(menu.value.permissionCode.value)))
  }

  function RoleRules(code: string, menus: seq<Option<MenuRow>>): seq<Rule> {
    if menus == [] then []
    else
      var last := RuleOf(code, menus[|menus| - 1]);
      RoleRules(code, menus[..|menus| - 1]) + if last.Some? then [last.value] else []
  }

  lemma {:induction false} RoleRulesSource(code: string, menus: seq<Option<MenuRow>>, rule: Rule) returns (m: Option<MenuRow>)
    requires rule in RoleRules(code, menus)
    ensures m in menus && RuleOf(code, m) == Some(rule)
  {
    var init, last := menus[..|menus| - 1], menus[|menus| - 1];
    if rule in RoleRules(code, init) {
      m := RoleRulesSource(code, init, rule);
    } else {
      m := last;
    }
  }

  lemma {:induction false} RoleRulesHas(code: string, menus: seq<Option<MenuRow>>, k: nat)
    requires k < |menus| && RuleOf(code, menus[k]).Some?
    ensures RuleOf(code, menus[k]).value in RoleRules(code, menus)
  {
    if k < |menus| - 1 {
      RoleRulesHas(code, menus[..|menus| - 1], k);
    }
  }

  lemma RoleRulesStep(code: string, menus: seq<Option<MenuRow>>, k: nat)
    requires k < |menus|
    ensures RoleRules(code, menus[..k + 1]) ==
      RoleRules(code, menus[..k]) + if RuleOf(code, menus[k]).Some? then [RuleOf(code, menus[k]).value] else []
  {
    assert menus[..k + 1][..k] == menus[..k];
  }

  function GraphRules(graph: seq<LoadedRole>): seq<Rule> {
    if graph == [] then []
    else GraphRules(graph[..|graph| - 1]) + RoleRules(graph[|graph| - 1].code, graph[|graph| - 1].menus)
  }

  lemma {:induction false} GraphRulesSource(graph: seq<LoadedRole>, rule: Rule) returns (i: nat)
    requires rule in GraphRules(graph)
    ensures i < |graph| && rule in RoleRules(graph[i].code, graph[i].menus)
  {
    if rule in GraphRules(graph[..|graph| - 1]) {
      i := GraphRulesSource(graph[..|graph| - 1], rule);
    } else {
      i := |graph| - 1;
    }
  }

  lemma {:induction false} GraphRulesHas(graph: seq<LoadedRole>, i: nat, rule: Rule)
    requires i < |graph| && rule in RoleRules(graph[i].code, graph[i].menus)
    ensures rule in GraphRules(graph)
  {
    if i < |graph| - 1 {
      GraphRulesHas(graph[..|graph| - 1], i, rule);
    }
  }

  lemma FirstOfKeyStep(rules: seq<Rule>, rule: Rule)
    ensures FirstOfKey(rules + [rule]) ==
      if exists x :: x in FirstOfKey(rules) && Key(x) == Key(rule) then FirstOfKey(rules) else FirstOfKey(rules) + [rule]
  {
    assert (rules + [rule])[..|rules|] == rules;
  }

  ghost predicate Seen(seen: set<string>, rules: seq<Rule>) {
    seen == set rule | rule in rules :: Key(rule)
  }

  /** The `seen` check of the innermost loop. */
  method AddRule(rule: Rule, ghost sofar: seq<Rule>, rules0: seq<Rule>, seen0: set<string>)
    returns (rules: seq<Rule>, seen: set<string>)
    requires rules0 == FirstOfKey(sofar) && Seen(seen0, rules0)
    ensures rules == FirstOfKey(sofar + [rule]) && Seen(seen, rules)
  {
    FirstOfKeyStep(sofar, rule);
    var key := rule.roleCode + [NUL] + rule.permissionCode;
    if key in seen0 {
      return rules0, seen0;
    }
    rules, seen := rules0 + [rule], seen0 + {key};
    assert forall x :: x in rules <==> x in rules0 || x == rule;
    assert (set x | x in rules :: Key(x)) == (set x | x in rules0 :: Key(x)) + {Key(rule)};
  }

  /** The inner loop of LoadPolicyRules: one role's relations. */
  method CollectRole(role: LoadedRole, ghost before: seq<Rule>, rules0: seq<Rule>, seen0: set<string>)
    returns (rules: seq<Rule>, seen: set<string>)
    requires rules0 == FirstOfKey(before) && Seen(seen0, rules0)
    ensures rules == FirstOfKey(before + RoleRules(role.code, role.menus)) && Seen(seen, rules)
  {
    rules, seen := rules0, seen0;
    ghost var sofar := before;
    for k := 0 to |role.menus|
      invariant sofar == before + RoleRules(role.code, role.menus[..k])
      invariant rules == FirstOfKey(sofar) && Seen(seen, rules)
    {
      var menu := role.menus[k];
      RoleRulesStep(role.code, role.menus, k);
      if menu.None? || menu.value.permissionCode.None? {
        continue;
      }
      var permissionCode := TrimSpace(menu.value.permissionCode.value);
      if permissionCode == "" {
        continue;
      }
      rules, seen := AddRule(Rule(role.code, permissionCode), sofar, rules, seen);
      sofar := sofar + [Rule(role.code, permissionCode)];
    }
    assert role.menus[..|role.menus|] == role.menus;
  }

  /** The loops of LoadPolicyRules over the loaded graph. */
  method CollectRules(graph: seq<LoadedRole>) returns (rules: seq<Rule>)
    ensures rules == FirstOfKey(GraphRules(graph))
  {
    var seen: set<string> := {};
    rules := [];
    for i := 0 to |graph|
      invariant rules == FirstOfKey(GraphRules(graph[..i]))
      invariant Seen(seen, rules)
    {
      rules, seen := CollectRole(graph[i], GraphRules(graph[..i]), rules, seen);
      assert graph[..i + 1][..i] == graph[..i];
    }
    assert graph[..|graph|] == graph;
  }

  // ------------------------------------------------------- the whole method

  /** A fetched sys_role_menu row with the slot its menu is loaded into. */
  datatype Relation = Relation(row: RelationRow, menu: One<MenuRow>)

  method NewOnes(fks: seq<Option<Id>>) returns (nodes: seq<One<MenuRow>>)
    ensures fresh(nodes) && |nodes| == |fks|
    ensures forall i | 0 <= i < |fks| :: nodes[i].fk == fks[i] && nodes[i].edge == None
  {
    nodes := [];
    for i := 0 to |fks|
      invariant |nodes| == i && fresh(nodes)
      invariant forall j | 0 <= j < i :: nodes[j].fk == fks[j] && nodes[j].edge == None
    {
      var node := new One(fks[i]);
      nodes := nodes + [node];
    }
  }

  method NewManys(ids: seq<Id>) returns (nodes: seq<Many<Relation>>)
    ensures fresh(nodes) && NoAlias(nodes) && Owners(nodes) == ids
  {
    nodes := [];
    for i := 0 to |ids|
      invariant |nodes| == i && fresh(nodes) && NoAlias(nodes)
      invariant forall j | 0 <= j < i :: nodes[j].owner == ids[j]
    {
      var node := new Many(ids[i]);
      nodes := nodes + [node];
    }
    assert Owners(nodes) == ids;
  }

  function RoleIds(roles: seq<RoleRow>): (ids: seq<Id>)
    ensures |ids| == |roles| && forall i | 0 <= i < |ids| :: ids[i] == roles[i].id
  {
    seq(|roles|, i requires 0 <= i < |roles| => roles[i].id)
  }

  /** What WithRoleMenus and WithMenu fetch. */
  function ActiveRelations(db: Tables): seq<RelationRow> {
    Filter((rel: RelationRow) => !rel.deleted, db.relations)
  }

  function ActiveMenus(db: Tables): seq<Keyed<MenuRow>> {
    var menus := Filter(ActiveMenu, db.menus);
    seq(|menus|, i requires 0 <= i < |menus| => Keyed(menus[i].id, menus[i]))
  }

  /** The menu a relation row leads to. */
  function MenuOf(db: Tables, rel: RelationRow): Option<MenuRow> {
    Lookup(ActiveMenus(db), rel.menuID)
  }

  /** The relations of one role, in order. */
  function RelationsOf(relations: seq<RelationRow>, role: Id): seq<RelationRow> {
    Filter((rel: RelationRow) => rel.roleID == role, relations)
  }

  /** The loaded menus of one role, straight from the tables. */
  function MenusOf(db: Tables, relations: seq<RelationRow>, role: Id): (menus: seq<Option<MenuRow>>)
    ensures |menus| == |RelationsOf(relations, role)|
    ensures forall k | 0 <= k < |menus| :: menus[k] == MenuOf(db, RelationsOf(relations, role)[k])
  {
    var own := RelationsOf(relations, role);
    seq(|own|, k requires 0 <= k < |own| => MenuOf(db, own[k]))
  }

  /** The nested-loop join, role by role. */
  function Graph(db: Tables, roles: seq<RoleRow>): (g: seq<LoadedRole>)
    ensures |g| == |roles|
    ensures forall i | 0 <= i < |g| :: g[i] == LoadedRole(roles[i].code, MenusOf(db, ActiveRelations(db), roles[i].id))
  {
    seq(|roles|, i requires 0 <= i < |roles| => LoadedRole(roles[i].code, MenusOf(db, ActiveRelations(db), roles[i].id)))
  }

  /** What the relation query returns for these roles. */
  function Fetched(relations: seq<RelationRow>, ids: seq<Id>): seq<RelationRow> {
    Filter((rel: RelationRow) => rel.roleID in ids, relations)
  }

  lemma {:induction false} FetchedSuffices(relations: seq<RelationRow>, ids: seq<Id>, role: Id)
    requires role in ids
    ensures RelationsOf(Fetched(relations, ids), role) == RelationsOf(relations, role)
  {
    if relations != [] {
      var init, last := relations[..|relations| - 1], relations[|relations| - 1];
      FetchedSuffices(init, ids, role);
      var rows := Fetched(relations, ids);
      if last.roleID in ids {
        assert rows == Fetched(init, ids) + [last];
        assert rows[..|rows| - 1] == Fetched(init, ids);
      }
    }
  }

  /** Which of the three queries answer, if they are made. */
  datatype Queries = Queries(roles: bool, relations: bool, menus: bool)

  /** A query that does not answer is needed: the relations are asked for some role, the menus for some relation. */
  predicate QueryFails(db: Tables, q: Queries) {
    var roles := Filter(ActiveRole, db.roles);
    || !q.roles
    || (roles != [] && !q.relations)
    || (roles != [] && Fetched(ActiveRelations(db), RoleIds(roles)) != [] && !q.menus)
  }

  /** The rows carry these relations, and their menu slots hold the menus. */
  ghost predicate Loaded(db: Tables, relations: seq<RelationRow>, ones: seq<One<MenuRow>>, rows: seq<Row<Relation>>)
    requires |ones| == |relations| == |rows|
    reads ones
  {
    && (forall i | 0 <= i < |relations| :: ones[i].edge == MenuOf(db, relations[i]))
    && (forall i | 0 <= i < |rows| :: rows[i] == Row(Some(relations[i].roleID), Relation(relations[i], ones[i])))
  }

  /** The relation query with its nested WithMenu: rows whose menus are already loaded. */
  method LoadRelations(db: Tables, relations: seq<RelationRow>, q: Queries)
    returns (err: Option<LoadError>, ones: seq<One<MenuRow>>, rows: seq<Row<Relation>>)
    ensures err == if q.relations && (relations == [] || q.menus) then None else Some(QueryFailed)
    ensures err == None ==> fresh(ones) && |ones| == |rows| == |relations| && Loaded(db, relations, ones, rows)
  {
    ones, rows := [], [];
    if !q.relations {
      return Some(QueryFailed), ones, rows;
    }
    ones := NewOnes(seq(|relations|, i requires 0 <= i < |relations| => Some(relations[i].menuID)));
    SomeWanted(ones);
    err := LoadOneFrom(ones, ActiveMenus(db), q.menus);
    if err == None {
      rows := seq(|relations|, i requires 0 <= i < |relations| && |ones| == |relations| =>
        Row(Some(relations[i].roleID), Relation(relations[i], ones[i])));
    }
  }

  /** Keys are asked for exactly when there is a node. */
  lemma SomeWanted(ones: seq<One<MenuRow>>)
    requires forall i | 0 <= i < |ones| :: ones[i].fk.Some?
    ensures Wanted(ones) == [] <==> ones == []
  {
    if ones != [] {
      WantedAll(ones, 0);
    }
  }

  /** Eager loading both edges of the active roles yields the nested-loop join of the tables, unless a query
      that is needed fails. */
  method LoadGraph(db: Tables, q: Queries) returns (err: Option<LoadError>, graph: seq<LoadedRole>)
    requires DistinctIds(RoleIds(Filter(ActiveRole, db.roles)))
    ensures err == if QueryFails(db, q) then Some(QueryFailed) else None
    ensures err == None ==> graph == Graph(db, Filter(ActiveRole, db.roles))
  {
    if !q.roles {
      return Some(QueryFailed), [];
    }
    var roles := Filter(ActiveRole, db.roles);
    if roles == [] {
      return None, [];
    }
    var relations := Fetched(ActiveRelations(db), RoleIds(roles));
    var ones, rows;
    err, ones, rows := LoadRelations(db, relations, q);
    if err != None {
      return err, [];
    }
    var manys := NewManys(RoleIds(roles));
    err := LoadManyFrom(manys, rows, true);
    graph := ReadGraph(db, roles, relations, ones, rows, manys);
  }

  /** The loaded nodes as the loops of LoadPolicyRules read them. */
  method ReadGraph(db: Tables, roles: seq<RoleRow>, ghost relations: seq<RelationRow>, ghost ones: seq<One<MenuRow>>,
      ghost rows: seq<Row<Relation>>, manys: seq<Many<Relation>>) returns (graph: seq<LoadedRole>)
    requires relations == Fetched(ActiveRelations(db), RoleIds(roles))
    requires |ones| == |rows| == |relations| && Loaded(db, relations, ones, rows)
    requires |manys| == |roles|
    requires forall i | 0 <= i < |roles| :: manys[i].edge == Referring(rows, roles[i].id)
    ensures graph == Graph(db, roles)
  {
    graph := [];
    forall i | 0 <= i < |roles|
      ensures EdgeMenus(manys[i].edge) == Graph(db, roles)[i].menus
    {
      RoleMenus(db, roles, relations, ones, rows, i);
    }
    for i := 0 to |roles|
      invariant |graph| == i
      invariant forall j | 0 <= j < i :: graph[j] == Graph(db, roles)[j]
    {
      graph := graph + [LoadedRole(roles[i].code, EdgeMenus(manys[i].edge))];
    }
  }

  lemma RoleMenus(db: Tables, roles: seq<RoleRow>, relations: seq<RelationRow>, ones: seq<One<MenuRow>>,
      rows: seq<Row<Relation>>, i: nat)
    requires relations == Fetched(ActiveRelations(db), RoleIds(roles)) && i < |roles|
    requires |ones| == |rows| == |relations| && Loaded(db, relations, ones, rows)
    ensures EdgeMenus(Referring(rows, roles[i].id)) == MenusOf(db, ActiveRelations(db), roles[i].id)
  {
    assert roles[i].id == RoleIds(roles)[i];
    FetchedSuffices(ActiveRelations(db), RoleIds(roles), roles[i].id);
    EdgeMenusJoin(db, relations, ones, rows, roles[i].id);
  }

  function EdgeMenus(edge: seq<Row<Relation>>): (menus: seq<Option<MenuRow>>)
    reads set row | row in edge :: row.entity.menu
    ensures |menus| == |edge| && forall k | 0 <= k < |menus| :: menus[k] == edge[k].entity.menu.edge
  {
    seq(|edge|, k requires 0 <= k < |edge| reads set row | row in edge :: row.entity.menu => edge[k].entity.menu.edge)
  }

  lemma EdgeMenusJoin(db: Tables, relations: seq<RelationRow>, ones: seq<One<MenuRow>>, rows: seq<Row<Relation>>, role: Id)
    requires |ones| == |relations| == |rows| && Loaded(db, relations, ones, rows)
    ensures EdgeMenus(Referring(rows, role)) == MenusOf(db, relations, role)
  {
    var edge := Referring(rows, role);
    ReferringRelations(relations, rows, role);
    forall k | 0 <= k < |edge|
      ensures edge[k].entity.menu.edge == MenuOf(db, RelationsOf(relations, role)[k])
    {
      assert edge[k] in edge && edge[k] in rows;
      var i :| 0 <= i < |rows| && rows[i] == edge[k];
    }
  }

  /** The rows referring to a role carry the relations of that role, in order. */
  lemma {:induction false} ReferringRelations(relations: seq<RelationRow>, rows: seq<Row<Relation>>, role: Id)
    requires |relations| == |rows|
    requires forall i | 0 <= i < |rows| :: rows[i].fk == Some(relations[i].roleID) && rows[i].entity.row == relations[i]
    ensures |Referring(rows, role)| == |RelationsOf(relations, role)|
    ensures forall k | 0 <= k < |Referring(rows, role)| ::
      Referring(rows, role)[k].entity.row == RelationsOf(relations, role)[k]
  {
    if rows != [] {
      ReferringRelations(relations[..|rows| - 1], rows[..|rows| - 1], role);
    }
  }

  lemma MenusOfSource(db: Tables, relations: seq<RelationRow>, role: Id, m: Option<MenuRow>) returns (rel: RelationRow)
    requires m in MenusOf(db, relations, role)
    ensures rel in relations && rel.roleID == role && MenuOf(db, rel) == m
  {
    var own := RelationsOf(relations, role);
    var k :| 0 <= k < |own| && MenusOf(db, relations, role)[k] == m;
    rel := own[k];
    assert rel in own;
  }

  lemma MenusOfHas(db: Tables, relations: seq<RelationRow>, rel: RelationRow)
    requires rel in relations
    ensures MenuOf(db, rel) in MenusOf(db, relations, rel.roleID)
  {
    var own := RelationsOf(relations, rel.roleID);
    var k :| 0 <= k < |own| && own[k] == rel;
    assert MenusOf(db, relations, rel.roleID)[k] == MenuOf(db, rel);
  }

  /** Primary keys are unique. */
  ghost predicate UniqueMenus(db: Tables) {
    forall a, b | a in db.menus && b in db.menus && a.id == b.id :: a == b
  }

  lemma MenuOfMeans(db: Tables, rel: RelationRow, m: MenuRow)
    requires UniqueMenus(db)
    ensures MenuOf(db, rel) == Some(m) <==> m in db.menus && ActiveMenu(m) && m.id == rel.menuID
  {
    var rows, menus := ActiveMenus(db), Filter(ActiveMenu, db.menus);
    if MenuOf(db, rel) == Some(m) {
      var k :| 0 <= k < |rows| && rows[k] == Keyed(rel.menuID, m);
      assert menus[k] in menus;
    }
    if m in db.menus && ActiveMenu(m) && m.id == rel.menuID {
      var k :| 0 <= k < |menus| && menus[k] == m;
      assert rows[k].id == rel.menuID;
      var found := MenuOf(db, rel).value;
      var j :| 0 <= j < |rows| && rows[j] == Keyed(rel.menuID, found);
      assert menus[j] in menus;
    }
  }

  lemma JoinedIsGranted(db: Tables, rule: Rule)
    requires UniqueMenus(db) && rule in GraphRules(Graph(db, Filter(ActiveRole, db.roles)))
    ensures Grants(db, rule)
  {
    var roles := Filter(ActiveRole, db.roles);
    var graph := Graph(db, roles);
    var i := GraphRulesSource(graph, rule);
    var m := RoleRulesSource(graph[i].code, graph[i].menus, rule);
    var rel := MenusOfSource(db, ActiveRelations(db), roles[i].id, m);
    MenuOfMeans(db, rel, m.value);
    assert roles[i] in roles;
    assert GrantedThrough(db, rule, roles[i], rel, m.value);
  }

  lemma RoleRulesMember(code: string, menus: seq<Option<MenuRow>>, menu: Option<MenuRow>)
    requires menu in menus && RuleOf(code, menu).Some?
    ensures RuleOf(code, menu).value in RoleRules(code, menus)
  {
    var k :| 0 <= k < |menus| && menus[k] == menu;
    RoleRulesHas(code, menus, k);
  }

  lemma RelationGives(db: Tables, code: string, rel: RelationRow, m: MenuRow)
    requires UniqueMenus(db) && rel in db.relations && !rel.deleted
    requires m in db.menus && ActiveMenu(m) && m.id == rel.menuID && RuleOf(code, Some(m)).Some?
    ensures RuleOf(code, Some(m)).value in RoleRules(code, MenusOf(db, ActiveRelations(db), rel.roleID))
  {
    MenuOfMeans(db, rel, m);
    MenusOfHas(db, ActiveRelations(db), rel);
    RoleRulesMember(code, MenusOf(db, ActiveRelations(db), rel.roleID), Some(m));
  }

  lemma GrantedIsJoined(db: Tables, rule: Rule, r: RoleRow, rel: RelationRow, m: MenuRow)
    requires UniqueMenus(db) && GrantedThrough(db, rule, r, rel, m)
    ensures rule in GraphRules(Graph(db, Filter(ActiveRole, db.roles)))
  {
    assert RuleOf(r.code, Some(m)) == Some(rule);
    RelationGives(db, r.code, rel, m);
    RoleGives(db, Filter(ActiveRole, db.roles), r, rule);
  }

  lemma RoleGives(db: Tables, roles: seq<RoleRow>, r: RoleRow, rule: Rule)
    requires r in roles && rule in RoleRules(r.code, MenusOf(db, ActiveRelations(db), r.id))
    ensures rule in GraphRules(Graph(db, roles))
  {
    var i :| 0 <= i < |roles| && roles[i] == r;
    GraphRulesHas(Graph(db, roles), i, rule);
  }

  /** The joined rules are exactly the granted ones. */
  lemma GraphMeans(db: Tables, rule: Rule)
    requires UniqueMenus(db)
    ensures rule in GraphRules(Graph(db, Filter(ActiveRole, db.roles))) <==> Grants(db, rule)
  {
    if rule in GraphRules(Graph(db, Filter(ActiveRole, db.roles))) {
      JoinedIsGranted(db, rule);
    }
    if Grants(db, rule) {
      var r, rel, m :| GrantedThrough(db, rule, r, rel, m);
      GrantedIsJoined(db, rule, r, rel, m);
    }
  }

  /** LoadPolicyRules on tables with unique keys: an error when a query that is needed fails; otherwise, with
      NUL-free role codes, exactly the granted rules, each once, in the order of their first occurrence. */
  method LoadPolicyRules(db: Tables, q: Queries) returns (err: Option<LoadError>, rules: seq<Rule>)
    requires DistinctIds(RoleIds(Filter(ActiveRole, db.roles))) && UniqueMenus(db)
    ensures err == if QueryFails(db, q) then Some(QueryFailed) else None
    ensures err == None ==> rules == FirstOfKey(GraphRules(Graph(db, Filter(ActiveRole, db.roles))))
    ensures err == None && (forall r | r in db.roles :: NUL !in r.code) ==>
      && (forall rule :: rule in rules <==> Grants(db, rule))
      && InOrder(GraphRules(Graph(db, Filter(ActiveRole, db.roles))), rules)
  {
    var graph;
    err, graph := LoadGraph(db, q);
    if err != None {
      return err, [];
    }
    rules := CollectRules(graph);
    if forall r | r in db.roles :: NUL !in r.code {
      GrantedExactly(db, graph);
    }
  }

  lemma GrantedExactly(db: Tables, graph: seq<LoadedRole>)
    requires UniqueMenus(db) && graph == Graph(db, Filter(ActiveRole, db.roles))
    requires forall r | r in db.roles :: NUL !in r.code
    ensures forall rule :: rule in FirstOfKey(GraphRules(graph)) <==> Grants(db, rule)
    ensures InOrder(GraphRules(graph), FirstOfKey(GraphRules(graph)))
  {
    NulFreeSeparates(db);
    SeparateKeysDistinct(GraphRules(graph));
    DistinctMeans(GraphRules(graph), Any);
    forall rule
      ensures rule in FirstOfKey(GraphRules(graph)) <==> Grants(db, rule)
    {
      GraphMeans(db, rule);
    }
  }

  lemma NulFreeSeparates(db: Tables)
    requires UniqueMenus(db) && forall r | r in db.roles :: NUL !in r.code
    ensures KeysSeparate(GraphRules(Graph(db, Filter(ActiveRole, db.roles))))
  {
    var rules := GraphRules(Graph(db, Filter(ActiveRole, db.roles)));
    forall a, b | a in rules && b in rules && Key(a) == Key(b)
      ensures a == b
    {
      GraphMeans(db, a);
      GraphMeans(db, b);
      KeyInjective(a, b);
    }
  }

  /** Codes and permissions with a NUL that the key cannot tell apart. */
  function Confusing(): Tables {
    Tables(
      [RoleRow(1, ['a'], true, false), RoleRow(2, ['a', NUL], true, false)],
      [RelationRow(1, 1, false), RelationRow(2, 2, false)],
      [MenuRow(1, Some([NUL, 'b']), false), MenuRow(2, Some(['b']), false)])
  }

  /** Of two rules with one key at most one is kept. */
  lemma SharedKeyLoses(rules: seq<Rule>, a: Rule, b: Rule)
    requires a != b && Key(a) == Key(b)
    ensures !(a in FirstOfKey(rules) && b in FirstOfKey(rules))
  {
    if a in FirstOfKey(rules) && b in FirstOfKey(rules) {
      OneOfEachKey(rules, a, b);
    }
  }

  lemma GrantedBy(db: Tables, r: RoleRow, rel: RelationRow, m: MenuRow, permission: string)
    requires r in db.roles && ActiveRole(r) && rel in db.relations && !rel.deleted && rel.roleID == r.id
    requires m in db.menus && ActiveMenu(m) && m.id == rel.menuID
    requires m.permissionCode == Some(permission) && permission != []
    requires !IsSpace(permission[0]) && !IsSpace(permission[|permission| - 1])
    ensures Grants(db, Rule(r.code, permission))
  {
    assert TrimSpace(permission) == permission;
    assert GrantedThrough(db, Rule(r.code, permission), r, rel, m);
  }

  /** Two rules with one key, each granted by the rows with its index. */
  const FIRST := Rule(['a'], [NUL, 'b'])
  const SECOND := Rule(['a', NUL], ['b'])

  lemma KeyClash()
    ensures FIRST != SECOND && Key(FIRST) == Key(SECOND)
  {
    assert Key(FIRST) == ['a', NUL, NUL, 'b'];
    assert Key(SECOND) == ['a', NUL, NUL, 'b'];
  }

  /** The separator is not safe for arbitrary strings: of two granted rules one is missing from the result. */
  lemma NulConfusesKeys()
    ensures var db := Confusing();
      var rules := FirstOfKey(GraphRules(Graph(db, Filter(ActiveRole, db.roles))));
      Grants(db, FIRST) && Grants(db, SECOND) && !(FIRST in rules && SECOND in rules)
  {
    var db := Confusing();
    GrantedBy(db, db.roles[0], db.relations[0], db.menus[0], FIRST.permissionCode);
    GrantedBy(db, db.roles[1], db.relations[1], db.menus[1], SECOND.permissionCode);
    KeyClash();
    SharedKeyLoses(GraphRules(Graph(db, Filter(ActiveRole, db.roles))), FIRST, SECOND);
  }
}

/**
 SysMenuMutation: the batched edge edits, the additive numeric field and the nullable audit
 field, with the part of the update builder that turns them into a specification.
 */
module Mutation {
  import opened Prelude

  type Id = int

  // ------------------------------------------------------------ int16, int64

  /** The int16 with the same residue. */
  function Wrap16(x: int): (r: int)
    ensures -0x8000 <= r < 0x8000 && r % 0x1_0000 == x % 0x1_0000
    ensures -0x8000 <= x < 0x8000 ==> r == x
  {
    (x + 0x8000) % 0x1_0000 - 0x8000
  }

  /** The int64 with the same residue. */
  function Wrap64(x: int): (r: int)
    ensures -0x8000_0000_0000_0000 <= r < 0x8000_0000_0000_0000
    ensures r % 0x1_0000_0000_0000_0000 == x % 0x1_0000_0000_0000_0000
    ensures -0x8000_0000_0000_0000 <= x < 0x8000_0000_0000_0000 ==> r == x
  {
    (x + 0x8000_0000_0000_0000) % 0x1_0000_0000_0000_0000 - 0x8000_0000_0000_0000
  }

  // ------------------------------------------------------------- edge edits

  datatype EdgeOp = Add(ids: seq<Id>) | Remove(ids: seq<Id>) | Clear | Reset

  datatype Edge = Edge(added: set<Id>, removed: set<Id>, cleared: bool)

  const NO_EDITS := Edge({}, {}, false)

  function Ids(ids: seq<Id>): (r: set<Id>)
    ensures forall x :: x in r <==> x in ids
  {
    set x | x in ids
  }

  function EdgeStep(e: Edge, op: EdgeOp): Edge {
    match op
    case Add(ids) => e.(added := e.added + Ids(ids))
    case Remove(ids) => e.(added := e.added - Ids(ids), removed := e.removed + Ids(ids))
    case Clear => e.(cleared := true)
    case Reset => NO_EDITS
  }

  function EdgeRun(ops: seq<EdgeOp>): Edge {
    if ops == [] then NO_EDITS else EdgeStep(EdgeRun(ops[..|ops| - 1]), ops[|ops| - 1])
  }

  /** One edge entry of an update specification; without nodes a clear means all. */
  datatype EdgeSpec = EdgeSpec(clear: seq<set<Id>>, add: seq<set<Id>>)

  function SpecOf(e: Edge): EdgeSpec {
    EdgeSpec(
      (if e.cleared then [{}] else []) + (if e.removed != {} && !e.cleared then [e.removed] else []),
      if e.added != {} then [e.added] else [])
  }

  /** What the storage layer does with a specification: all clears before all adds. */
  function ApplyClears(edges: set<Id>, clears: seq<set<Id>>): set<Id>
    decreases |clears|
  {
    if clears == [] then edges
    else ApplyClears(if clears[0] == {} then {} else edges - clears[0], clears[1..])
  }

  function ApplyAdds(edges: set<Id>, adds: seq<set<Id>>): set<Id>
    decreases |adds|
  {
    if adds == [] then edges else ApplyAdds(edges + adds[0], adds[1..])
  }

  function ApplySpec(edges: set<Id>, spec: EdgeSpec): set<Id> {
    ApplyAdds(ApplyClears(edges, spec.clear), spec.add)
  }

  // ------------------------------------------------------------ field edits

  datatype Numeric = Numeric(put: Option<int>, add: Option<int>)

  datatype NumericOp = SetTo(i: int) | AddOn(i: int) | Forget

  function NumericStep(f: Numeric, op: NumericOp): Numeric {
    match op
    case SetTo(i) => Numeric(Some(i), None)
    case AddOn(i) => f.(add := Some(if f.add.Some? then Wrap16(f.add.value + i) else i))
    case Forget => Numeric(None, None)
  }

  datatype Audit = Audit(put: Option<int>, add: Option<int>, cleared: bool)

  datatype AuditOp = PutField(i: int) | AddField(i: int) | ClearField | ResetField

  function AuditStep(f: Audit, op: AuditOp): Audit {
    match op
    case PutField(i) => f.(put := Some(i), add := None)
    case AddField(i) => f.(add := Some(if f.add.Some? then Wrap64(f.add.value + i) else i))
    case ClearField => Audit(None, None, true)
    case ResetField => Audit(None, None, false)
  }

  datatype BuilderOp = BuilderSet(i: int) | BuilderAdd(i: int) | BuilderClear

  function BuilderStep(f: Audit, op: BuilderOp): Audit {
    match op
    case BuilderSet(i) => AuditStep(AuditStep(f, ResetField), PutField(i))
    case BuilderAdd(i) => AuditStep(f, AddField(i))
    case BuilderClear => AuditStep(f, ClearField)
  }

  // ---------------------------------------------------------------- the class

  class SysMenuMutation {
    var children: Option<set<Id>>           // None is the nil map
    var removedChildren: Option<set<Id>>
    var clearedChildren: bool
    var menuType: Option<int>
    var addMenuType: Option<int>
    var createdBy: Option<int>
    var addCreatedBy: Option<int>
    var createdByCleared: bool              // "created_by" in clearedFields

    constructor ()
      ensures Children() == NO_EDITS && MenuType() == Numeric(None, None) && CreatedBy() == Audit(None, None, false)
    {
      children, removedChildren, clearedChildren := None, None, false;
      menuType, addMenuType := None, None;
      createdBy, addCreatedBy, createdByCleared := None, None, false;
    }

    function Children(): Edge
      reads this
    {
      Edge(if children.Some? then children.value else {}, if removedChildren.Some? then removedChildren.value else {},
           clearedChildren)
    }

    function MenuType(): Numeric
      reads this
    {
      Numeric(menuType, addMenuType)
    }

    function CreatedBy(): Audit
      reads this
    {
      Audit(createdBy, addCreatedBy, createdByCleared)
    }

    method AddChildIDs(ids: seq<Id>)
      modifies this`children
      ensures Children() == EdgeStep(old(Children()), Add(ids))
    {
      if children.None? {
        children := Some({});
      }
      ghost var start := children.value;
      for i := 0 to |ids|
        invariant children.Some? && children.value == start + Ids(ids[..i])
      {
        assert Ids(ids[..i + 1]) == Ids(ids[..i]) + {ids[i]} by {
          assert ids[..i + 1] == ids[..i] + [ids[i]];
        }
        children := Some(children.value + {ids[i]});
      }
      assert ids[..|ids|] == ids;
    }

    method RemoveChildIDs(ids: seq<Id>)
      modifies this`children, this`removedChildren
      ensures Children() == EdgeStep(old(Children()), Remove(ids))
    {
      if removedChildren.None? {
        removedChildren := Some({});
      }
      ghost var start := Children();
      for i := 0 to |ids|
        invariant removedChildren.Some? && removedChildren.value == start.removed + Ids(ids[..i])
        invariant Children().added == start.added - Ids(ids[..i])
      {
        assert Ids(ids[..i + 1]) == Ids(ids[..i]) + {ids[i]} by {
          assert ids[..i + 1] == ids[..i] + [ids[i]];
        }
        if children.Some? {
          children := Some(children.value - {ids[i]});
        }
        removedChildren := Some(removedChildren.value + {ids[i]});
      }
      assert ids[..|ids|] == ids;
    }

    method ClearChildren()
      modifies this`clearedChildren
      ensures Children() == EdgeStep(old(Children()), Clear)
    {
      clearedChildren := true;
    }

    method ResetChildren()
      modifies this`children, this`removedChildren, this`clearedChildren
      ensures Children() == EdgeStep(old(Children()), Reset)
    {
      children, clearedChildren, removedChildren := None, false, None;
    }

    /** The part of sqlSave that turns the edge edits into a specification. */
    method ChildrenSpec() returns (spec: EdgeSpec)
      ensures spec == SpecOf(Children())
    {
      spec := EdgeSpec([], []);
      if clearedChildren {
        spec := spec.(clear := spec.clear + [{}]);
      }
      if removedChildren.Some? && removedChildren.value != {} && !clearedChildren {
        spec := spec.(clear := spec.clear + [removedChildren.value]);
      }
      if children.Some? && children.value != {} {
        spec := spec.(add := spec.add + [children.value]);
      }
    }

    // ------------------------------------------------- numeric and audit field

    method SetMenuType(i: int)
      modifies this`menuType, this`addMenuType
      ensures MenuType() == NumericStep(old(MenuType()), SetTo(i))
    {
      menuType, addMenuType := Some(i), None;
    }

    method AddMenuType(i: int)
      modifies this`addMenuType
      ensures MenuType() == NumericStep(old(MenuType()), AddOn(i))
    {
      if addMenuType.Some? {
        addMenuType := Some(Wrap16(addMenuType.value + i));
      } else {
        addMenuType := Some(i);
      }
    }

    method ResetMenuType()
      modifies this`menuType, this`addMenuType
      ensures MenuType() == NumericStep(old(MenuType()), Forget)
    {
      menuType, addMenuType := None, None;
    }

    method SetCreatedBy(i: int)
      modifies this`createdBy, this`addCreatedBy
      ensures CreatedBy() == AuditStep(old(CreatedBy()), PutField(i))
    {
      createdBy, addCreatedBy := Some(i), None;
    }

    method AddCreatedBy(i: int)
      modifies this`addCreatedBy
      ensures CreatedBy() == AuditStep(old(CreatedBy()), AddField(i))
    {
      if addCreatedBy.Some? {
        addCreatedBy := Some(Wrap64(addCreatedBy.value + i));
      } else {
        addCreatedBy := Some(i);
      }
    }

    method ClearCreatedBy()
      modifies this`createdBy, this`addCreatedBy, this`createdByCleared
      ensures CreatedBy() == AuditStep(old(CreatedBy()), ClearField)
    {
      createdBy, addCreatedBy, createdByCleared := None, None, true;
    }

    method ResetCreatedBy()
      modifies this`createdBy, this`addCreatedBy, this`createdByCleared
      ensures CreatedBy() == AuditStep(old(CreatedBy()), ResetField)
    {
      createdBy, addCreatedBy, createdByCleared := None, None, false;
    }
  }

  /** The update builder: its setter resets the field before it sets it. */
  class SysMenuUpdate {
    const mutation: SysMenuMutation

    constructor (mutation: SysMenuMutation)
      ensures this.mutation == mutation
    {
      this.mutation := mutation;
    }

    method SetCreatedBy(v: int)
      modifies mutation
      ensures mutation.CreatedBy() == BuilderStep(old(mutation.CreatedBy()), BuilderSet(v))
    {
      mutation.ResetCreatedBy();
      mutation.SetCreatedBy(v);
    }

    method AddCreatedBy(v: int)
      modifies mutation
      ensures mutation.CreatedBy() == BuilderStep(old(mutation.CreatedBy()), BuilderAdd(v))
    {
      mutation.AddCreatedBy(v);
    }

    method ClearCreatedBy()
      modifies mutation
      ensures mutation.CreatedBy() == BuilderStep(old(mutation.CreatedBy()), BuilderClear)
    {
      mutation.ClearCreatedBy();
    }
  }

  // ------------------------------------- batched edits refine sequential edits

  /** The edits after the last Reset. */
  function SinceReset(ops: seq<EdgeOp>): seq<EdgeOp> {
    if ops == [] then []
    else if ops[|ops| - 1].Reset? then []
    else SinceReset(ops[..|ops| - 1]) + [ops[|ops| - 1]]
  }

  /** Adds and Removes one by one; a Clear in between is not an edit. */
  function Sequential(edges: set<Id>, ops: seq<EdgeOp>): set<Id> {
    if ops == [] then edges
    else
      var before := Sequential(edges, ops[..|ops| - 1]);
      match ops[|ops| - 1]
      case Add(ids) => before + Ids(ids)
      case Remove(ids) => before - Ids(ids)
      case _ => before
  }

  predicate HasClear(ops: seq<EdgeOp>) {
    Clear in ops
  }

  lemma {:induction false} EdgeRunMeans(ops: seq<EdgeOp>, start: set<Id>)
    ensures var e, since := EdgeRun(ops), SinceReset(ops);
      && (start - e.removed) + e.added == Sequential(start, since)
      && (e.cleared <==> HasClear(since))
  {
    if ops != [] {
      var init, last := ops[..|ops| - 1], ops[|ops| - 1];
      EdgeRunMeans(init, start);
      if !last.Reset? {
        var since := SinceReset(ops);
        assert since[..|since| - 1] == SinceReset(init);
      }
    }
  }

  /** Applying the batched specification gives the edges of the sequential run, started from the
      old edges, or from none if a Clear occurred since the last Reset. */
  lemma BatchedIsSequential(ops: seq<EdgeOp>, edges: set<Id>)
    ensures ApplySpec(edges, SpecOf(EdgeRun(ops))) ==
      Sequential(if HasClear(SinceReset(ops)) then {} else edges, SinceReset(ops))
  {
    var e := EdgeRun(ops);
    EdgeRunMeans(ops, if e.cleared then {} else edges);
    SpecMeans(edges, e);
  }

  lemma SpecMeans(edges: set<Id>, e: Edge)
    ensures ApplySpec(edges, SpecOf(e)) == (if e.cleared then {} else edges - e.removed) + e.added
  {
    var clear, add := SpecOf(e).clear, SpecOf(e).add;
    var left := if e.cleared then {} else edges - e.removed;
    if e.cleared {
      assert clear == [{}] && clear[1..] == [];
    } else if e.removed != {} {
      assert clear == [e.removed] && clear[1..] == [];
    } else {
      assert clear == [];
    }
    assert ApplyClears(edges, clear) == left;
    if e.added != {} {
      assert add == [e.added] && add[1..] == [];
      assert ApplyAdds(left + e.added, add[1..]) == left + e.added;
    } else {
      assert add == [] && left + e.added == left;
    }
  }

  // ------------------------------------------------ where a Clear was written

  /** The edits with a Clear taking effect where it is written. */
  function Positional(edges: set<Id>, ops: seq<EdgeOp>): set<Id> {
    if ops == [] then edges
    else
      var before := Positional(edges, ops[..|ops| - 1]);
      match ops[|ops| - 1]
      case Add(ids) => before + Ids(ids)
      case Remove(ids) => before - Ids(ids)
      case Clear => {}
      case Reset => before
  }

  predicate Mentions(ops: seq<EdgeOp>, id: Id) {
    exists op :: op in ops && (op.Add? || op.Remove?) && id in op.ids
  }

  predicate Plain(ops: seq<EdgeOp>) {
    forall op | op in ops :: op.Add? || op.Remove?
  }

  lemma {:induction false} PlainSame(edges: set<Id>, pre: seq<EdgeOp>, post: seq<EdgeOp>)
    requires Plain(post)
    ensures Positional(edges, pre + post) == Sequential(Positional(edges, pre), post)
    ensures Sequential(edges, pre + post) == Sequential(Sequential(edges, pre), post)
  {
    if post == [] {
      assert pre + post == pre;
    } else {
      var n := |post| - 1;
      assert (pre + post)[..|pre + post| - 1] == pre + post[..n];
      assert post[n] in post;
      PlainSame(edges, pre, post[..n]);
    }
  }

  /** Where the edits mention an id, the start does not matter; elsewhere only the start matters. */
  lemma {:induction false} SequentialPointwise(a: set<Id>, b: set<Id>, ops: seq<EdgeOp>, id: Id)
    requires Plain(ops)
    ensures Mentions(ops, id) ==> (id in Sequential(a, ops) <==> id in Sequential(b, ops))
    ensures !Mentions(ops, id) ==> (id in Sequential(a, ops) <==> id in a)
  {
    if ops != [] {
      var init, last := ops[..|ops| - 1], ops[|ops| - 1];
      assert ops == init + [last] && last in ops;
      SequentialPointwise(a, b, init, id);
      assert Mentions(ops, id) <==> Mentions(init, id) || id in last.ids;
    }
  }

  /** The place of the last Clear. */
  function LastClear(ops: seq<EdgeOp>): (k: nat)
    requires HasClear(ops)
    ensures k < |ops| && ops[k] == Clear && Clear !in ops[k + 1..]
  {
    if ops[|ops| - 1] == Clear then |ops| - 1
    else
      assert ops == ops[..|ops| - 1] + [ops[|ops| - 1]];
      var k := LastClear(ops[..|ops| - 1]);
      assert ops[k + 1..] == ops[..|ops| - 1][k + 1..] + [ops[|ops| - 1]];
      k
  }

  lemma {:induction false} SinceResetHasNone(ops: seq<EdgeOp>)
    ensures Reset !in SinceReset(ops)
  {
    if ops != [] && !ops[|ops| - 1].Reset? {
      SinceResetHasNone(ops[..|ops| - 1]);
    }
  }

  lemma {:induction false} WithoutClear(edges: set<Id>, ops: seq<EdgeOp>)
    requires Clear !in ops && Reset !in ops
    ensures Positional(edges, ops) == Sequential(edges, ops)
  {
    if ops != [] {
      assert ops[|ops| - 1] in ops;
      assert forall op | op in ops[..|ops| - 1] :: op in ops;
      WithoutClear(edges, ops[..|ops| - 1]);
    }
  }

  /** Both readings of an edit list with a Clear, split there. */
  lemma ClearForms(edges: set<Id>, pre: seq<EdgeOp>, post: seq<EdgeOp>)
    requires Plain(post)
    ensures Sequential({}, pre + [Clear] + post) == Sequential(Sequential({}, pre), post)
    ensures Positional(edges, pre + [Clear] + post) == Sequential({}, post)
  {
    assert (pre + [Clear])[..|pre|] == pre;
    PlainSame({}, pre + [Clear], post);
    PlainSame(edges, pre + [Clear], post);
  }

  /** The ids added before the last Clear, and not removed again, that no later edit mentions. */
  predicate Overtaken(since: seq<EdgeOp>, id: Id) {
    && HasClear(since)
    && id in Sequential({}, since[..LastClear(since)])
    && !Mentions(since[LastClear(since) + 1..], id)
  }

  /** Batched edits ignore where a Clear was written.  For any edits they agree with the written order exactly
      when no id was overtaken by a Clear since the last Reset. */
  lemma ClearOrderIff(edges: set<Id>, ops: seq<EdgeOp>)
    ensures ApplySpec(edges, SpecOf(EdgeRun(ops))) == Positional(edges, SinceReset(ops))
      <==> forall id :: !Overtaken(SinceReset(ops), id)
  {
    var since := SinceReset(ops);
    BatchedIsSequential(ops, edges);
    SinceResetHasNone(ops);
    if HasClear(since) {
      AgreesAfterClear(edges, since, LastClear(since));
    } else {
      WithoutClear(edges, since);
    }
  }

  lemma SplitAtClear(since: seq<EdgeOp>, k: nat)
    requires Reset !in since && k < |since| && since[k] == Clear && Clear !in since[k + 1..]
    ensures since == since[..k] + [Clear] + since[k + 1..] && Plain(since[k + 1..])
  {
    forall op | op in since[k + 1..]
      ensures op.Add? || op.Remove?
    {
      assert op in since;
    }
  }

  lemma AgreesAfterClear(edges: set<Id>, since: seq<EdgeOp>, k: nat)
    requires Reset !in since && HasClear(since) && k == LastClear(since)
    ensures Sequential({}, since) == Positional(edges, since) <==> forall id :: !Overtaken(since, id)
  {
    var pre, post := since[..k], since[k + 1..];
    SplitAtClear(since, k);
    ClearForms(edges, pre, post);
    SequentialAgree(Sequential({}, pre), post);
    assert forall id :: Overtaken(since, id) <==> id in Sequential({}, pre) && !Mentions(post, id);
  }

  lemma SequentialAgree(start: set<Id>, post: seq<EdgeOp>)
    requires Plain(post)
    ensures Sequential(start, post) == Sequential({}, post) <==> forall id | id in start :: Mentions(post, id)
  {
    var batched, written := Sequential(start, post), Sequential({}, post);
    if id :| id in start && !Mentions(post, id) {
      SequentialPointwise(start, {}, post, id);
      SequentialPointwise({}, start, post, id);
      assert id in batched && id !in written;
    } else {
      forall id
        ensures id in batched <==> id in written
      {
        SequentialPointwise(start, {}, post, id);
        SequentialPointwise({}, start, post, id);
      }
    }
  }

  // ------------------------------------------------------------ numeric field

  function NumericRun(ops: seq<NumericOp>): Numeric {
    if ops == [] then Numeric(None, None) else NumericStep(NumericRun(ops[..|ops| - 1]), ops[|ops| - 1])
  }

  /** The position after the last Set or Reset. */
  function LastReset(ops: seq<NumericOp>): (k: nat)
    ensures k <= |ops|
    ensures forall i | k <= i < |ops| :: ops[i].AddOn?
    ensures k > 0 ==> !ops[k - 1].AddOn?
  {
    if ops == [] then 0
    else if ops[|ops| - 1].AddOn? then LastReset(ops[..|ops| - 1])
    else |ops|
  }

  function Sum(ops: seq<NumericOp>): int {
    if ops == [] then 0
    else Sum(ops[..|ops| - 1]) + if ops[|ops| - 1].AddOn? then ops[|ops| - 1].i else 0
  }

  predicate Int16(x: int) {
    -0x8000 <= x < 0x8000
  }

  lemma Remainder16(x: int, q: int, r: int)
    requires x == q * 0x1_0000 + r && 0 <= r < 0x1_0000
    ensures x % 0x1_0000 == r
  {
  }

  /** Wrapping at every addition is wrapping once. */
  lemma Wrap16Once(a: int, b: int)
    ensures Wrap16(Wrap16(a) + b) == Wrap16(a + b)
  {
    var k, j := (a + 0x8000) / 0x1_0000, (a + b + 0x8000) / 0x1_0000;
    Remainder16(Wrap16(a) + b + 0x8000, j - k, (a + b + 0x8000) % 0x1_0000);
  }

  lemma SumStep(ops: seq<NumericOp>, k: nat)
    requires k < |ops| && ops[|ops| - 1].AddOn?
    ensures Sum(ops[k..]) == Sum(ops[..|ops| - 1][k..]) + ops[|ops| - 1].i
  {
    var tail := ops[k..];
    assert tail[..|tail| - 1] == ops[..|ops| - 1][k..];
  }

  /** After any edits: the set value is the last Set not followed by a Reset, and the added value is
      the wrapping int16 sum of the Adds since the last Set or Reset. */
  lemma {:induction false} NumericLog(ops: seq<NumericOp>)
    requires forall i | 0 <= i < |ops| && ops[i].AddOn? :: Int16(ops[i].i)
    ensures var k := LastReset(ops);
      && NumericRun(ops).put == (if k > 0 && ops[k - 1].SetTo? then Some(ops[k - 1].i) else None)
      && NumericRun(ops).add == (if k < |ops| then Some(Wrap16(Sum(ops[k..]))) else None)
  {
    if ops != [] {
      var init, last := ops[..|ops| - 1], ops[|ops| - 1];
      NumericLog(init);
      if last.AddOn? {
        var k := LastReset(init);
        SumStep(ops, k);
        Wrap16Once(Sum(init[k..]), last.i);
        assert k == |init| ==> Sum(init[k..]) == 0;
      }
    }
  }

  // -------------------------------------------------------------- audit field

  function BuilderRun(ops: seq<BuilderOp>): Audit {
    if ops == [] then Audit(None, None, false) else BuilderStep(BuilderRun(ops[..|ops| - 1]), ops[|ops| - 1])
  }

  /** The position after the last builder call that is not an Add. */
  function LastPut(ops: seq<BuilderOp>): (k: nat)
    ensures k <= |ops| && (k > 0 ==> !ops[k - 1].BuilderAdd?)
    ensures forall i | k <= i < |ops| :: ops[i].BuilderAdd?
  {
    if ops == [] then 0
    else if ops[|ops| - 1].BuilderAdd? then LastPut(ops[..|ops| - 1])
    else |ops|
  }

  /** Through the builder the field is set exactly when the last Set or Clear was a Set, cleared exactly when
      it was a Clear, hence never both; but an Add after a Clear leaves the field cleared and added to. */
  lemma {:induction false} BuilderExclusive(ops: seq<BuilderOp>)
    ensures var k, f := LastPut(ops), BuilderRun(ops);
      && (f.put.Some? <==> k > 0 && ops[k - 1].BuilderSet?)
      && (f.cleared <==> k > 0 && ops[k - 1].BuilderClear?)
      && (f.add.Some? <==> k < |ops|)
  {
    if ops != [] {
      BuilderExclusive(ops[..|ops| - 1]);
    }
  }

  // ------------------------------------- the audit field, written directly

  function AuditRun(ops: seq<AuditOp>): Audit {
    if ops == [] then Audit(None, None, false) else AuditStep(AuditRun(ops[..|ops| - 1]), ops[|ops| - 1])
  }

  /** The position after the last edit that is not an Add. */
  function LastValue(ops: seq<AuditOp>): (k: nat)
    ensures k <= |ops| && (k > 0 ==> !ops[k - 1].AddField?)
    ensures forall i | k <= i < |ops| :: ops[i].AddField?
  {
    if ops == [] then 0
    else if ops[|ops| - 1].AddField? then LastValue(ops[..|ops| - 1])
    else |ops|
  }

  /** The position after the last Clear or Reset. */
  function LastMark(ops: seq<AuditOp>): (k: nat)
    ensures k <= |ops| && (k > 0 ==> ops[k - 1].ClearField? || ops[k - 1].ResetField?)
    ensures forall i | k <= i < |ops| :: ops[i].PutField? || ops[i].AddField?
  {
    if ops == [] then 0
    else if ops[|ops| - 1].ClearField? || ops[|ops| - 1].ResetField? then |ops|
    else LastMark(ops[..|ops| - 1])
  }

  function AuditSum(ops: seq<AuditOp>): int {
    if ops == [] then 0
    else AuditSum(ops[..|ops| - 1]) + if ops[|ops| - 1].AddField? then ops[|ops| - 1].i else 0
  }

  predicate Int64(x: int) {
    -0x8000_0000_0000_0000 <= x < 0x8000_0000_0000_0000
  }

  lemma Remainder64(x: int, q: int, r: int)
    requires x == q * 0x1_0000_0000_0000_0000 + r && 0 <= r < 0x1_0000_0000_0000_0000
    ensures x % 0x1_0000_0000_0000_0000 == r
  {
  }

  lemma Wrap64Once(a: int, b: int)
    ensures Wrap64(Wrap64(a) + b) == Wrap64(a + b)
  {
    var half, turn := 0x8000_0000_0000_0000, 0x1_0000_0000_0000_0000;
    var k, j := (a + half) / turn, (a + b + half) / turn;
    Remainder64(Wrap64(a) + b + half, j - k, (a + b + half) % turn);
  }

  lemma AuditSumStep(ops: seq<AuditOp>, k: nat)
    requires k < |ops| && ops[|ops| - 1].AddField?
    ensures AuditSum(ops[k..]) == AuditSum(ops[..|ops| - 1][k..]) + ops[|ops| - 1].i
  {
    var tail := ops[k..];
    assert tail[..|tail| - 1] == ops[..|ops| - 1][k..];
  }

  /** After any edits: the value is the last Set with no later Clear or Reset, the addition the wrapping int64
      sum of the Adds since the last Set, Clear or Reset. */
  lemma {:induction false} AuditLog(ops: seq<AuditOp>)
    requires forall i | 0 <= i < |ops| && ops[i].AddField? :: Int64(ops[i].i)
    ensures var k, f := LastValue(ops), AuditRun(ops);
      && f.put == (if k > 0 && ops[k - 1].PutField? then Some(ops[k - 1].i) else None)
      && f.add == (if k < |ops| then Some(Wrap64(AuditSum(ops[k..]))) else None)
  {
    if ops != [] {
      var init, last := ops[..|ops| - 1], ops[|ops| - 1];
      AuditLog(init);
      if last.AddField? {
        var k := LastValue(init);
        AuditSumStep(ops, k);
        Wrap64Once(AuditSum(init[k..]), last.i);
        assert k == |init| ==> AuditSum(init[k..]) == 0;
      }
    }
  }

  /** The clear mark is that of the last Clear or Reset. */
  lemma {:induction false} AuditMark(ops: seq<AuditOp>)
    ensures AuditRun(ops).cleared <==> LastMark(ops) > 0 && ops[LastMark(ops) - 1].ClearField?
  {
    if ops != [] {
      AuditMark(ops[..|ops| - 1]);
    }
  }

  /** Where the value comes from. */
  lemma {:induction false} AuditValue(ops: seq<AuditOp>)
    ensures AuditRun(ops).put.Some? <==> LastValue(ops) > 0 && ops[LastValue(ops) - 1].PutField?
  {
    if ops != [] {
      AuditValue(ops[..|ops| - 1]);
    }
  }

  /** A Clear at `i` that no Reset undid, and a Set at `j` after it that no Clear or Reset undid. */
  predicate SetOverClear(ops: seq<AuditOp>, i: nat, j: nat) {
    && i < j < |ops| && ops[i].ClearField? && ops[j].PutField?
    && (forall m | i < m < |ops| :: !ops[m].ResetField?)
    && (forall m | j < m < |ops| :: !ops[m].ClearField?)
  }

  /** Written directly, the mutation leaves the field both set and cleared exactly after such edits. */
  lemma SetAndClearedIff(ops: seq<AuditOp>)
    ensures AuditRun(ops).put.Some? && AuditRun(ops).cleared <==> exists i, j :: SetOverClear(ops, i, j)
  {
    AuditMark(ops);
    AuditValue(ops);
    var k, c := LastValue(ops), LastMark(ops);
    if AuditRun(ops).put.Some? && AuditRun(ops).cleared {
      assert SetOverClear(ops, c - 1, k - 1);
    }
    if i: nat, j: nat :| SetOverClear(ops, i, j) {
      LastMarkIsClear(ops, i, j);
      LastValueIsSet(ops, i, j);
    }
  }

  lemma LastMarkIsClear(ops: seq<AuditOp>, i: nat, j: nat)
    requires SetOverClear(ops, i, j)
    ensures LastMark(ops) > i && ops[LastMark(ops) - 1].ClearField?
  {
  }

  lemma LastValueIsSet(ops: seq<AuditOp>, i: nat, j: nat)
    requires SetOverClear(ops, i, j)
    ensures LastValue(ops) > j && ops[LastValue(ops) - 1].PutField?
  {
  }

  lemma MutationCanSetAndClear()
    ensures var f := AuditRun([ClearField, PutField(7)]);
      f.put == Some(7) && f.cleared
  {
    assert [ClearField, PutField(7)][..1] == [ClearField] && [ClearField][..0] == [];
  }

  // ------------------------------------------------------------ the builder

  /** The edits of the mutation that the builder's calls amount to. */
  function Expand(ops: seq<BuilderOp>): seq<AuditOp> {
    if ops == [] then []
    else
      var init := Expand(ops[..|ops| - 1]);
      match ops[|ops| - 1]
      case BuilderSet(i) => init + [ResetField] + [PutField(i)]
      case BuilderAdd(i) => init + [AddField(i)]
      case BuilderClear => init + [ClearField]
  }

  lemma AuditPush(ops: seq<AuditOp>, op: AuditOp)
    ensures AuditRun(ops + [op]) == AuditStep(AuditRun(ops), op)
  {
    assert (ops + [op])[..|ops|] == ops;
  }

  /** So `AuditLog` also gives value and sum of a field that is written through the builder. */
  lemma {:induction false} BuilderRunIsAuditRun(ops: seq<BuilderOp>)
    ensures BuilderRun(ops) == AuditRun(Expand(ops))
  {
    if ops != [] {
      var init := Expand(ops[..|ops| - 1]);
      BuilderRunIsAuditRun(ops[..|ops| - 1]);
      match ops[|ops| - 1]
      case BuilderSet(i) =>
        AuditPush(init, ResetField);
        AuditPush(init + [ResetField], PutField(i));
      case BuilderAdd(i) => AuditPush(init, AddField(i));
      case BuilderClear => AuditPush(init, ClearField);
    }
  }
}

/**
 SysMenuCreateBulk.Save: a chain of mutators, one per builder, each wrapped in its builder's
 hooks; the innermost call inserts all specifications in one batch.  The recursion through
 the hooks is proved to do exactly what a plain pass over the builders describes.
 */
module BulkCreate {
  import opened Prelude

  /** The fields of one mutation; also the specification and the node made of them. */
  type Content = map<string, string>

  /** Constraint violations are wrapped, everything else is passed on. */
  datatype Error = Message(msg: string) | ConstraintError(msg: string)

  /** What the driver reports. */
  datatype DriverError = DriverError(msg: string, constraint: bool)

  function Wrapped(e: Option<DriverError>): Option<Error> {
    match e
    case None => None
    case Some(d) => Some(if d.constraint then ConstraintError(d.msg) else Message(d.msg))
  }

  /** A mutation handed on by a hook in place of the builder's own one. */
  datatype Draft = Draft(content: Content, isMenu: bool)

  /** What a hook does before it calls next: fail, edit the mutation it got, or hand on another one. */
  datatype Move = Fail(err: Error) | InPlace(content: Content) | Fresh(draft: Draft)

  /** An error-propagating hook: after next it may still fail, but never hides an error of next. */
  datatype Hook = Hook(before: Content -> Move, after: Content -> Option<Error>)

  function Before(h: Hook, x: Content): Move {
    h.before(x)
  }

  function After(h: Hook, node: Content): Option<Error> {
    h.after(node)
  }

  type Check = Content -> Option<Error>

  function Verdict(check: Check, x: Content): Option<Error> {
    check(x)
  }

  class Builder {
    const hooks: seq<Hook>
    const check: Check
    var mutation: Content
    var done: bool

    constructor (hooks: seq<Hook>, check: Check, content: Content)
      ensures this.hooks == hooks && this.check == check && mutation == content && !done
    {
      this.hooks, this.check, mutation, done := hooks, check, content, false;
    }
  }

  // ------------------------------------------------- one builder, as a value

  /** The builder's mutation and what is being passed along; None passes the builder's own. */
  datatype Stage = Stage(own: Content, arg: Option<Draft>)

  function Passed(s: Stage): Content {
    if s.arg.Some? then s.arg.value.content else s.own
  }

  function Advance(s: Stage, m: Move): Stage
    requires !m.Fail?
  {
    match m
    case InPlace(c) => if s.arg.None? then Stage(c, None) else Stage(s.own, Some(Draft(c, s.arg.value.isMenu)))
    case Fresh(d) => Stage(s.own, Some(d))
  }

  /** The hooks from `k` on, up to their calls of next. */
  function Descend(hooks: seq<Hook>, k: nat, s: Stage): Result<Stage, Error>
    requires k <= |hooks|
    decreases |hooks| - k
  {
    if k == |hooks| then Ok(s)
    else
      var m := Before(hooks[k], Passed(s));
      if m.Fail? then Err(m.err) else Descend(hooks, k + 1, Advance(s, m))
  }

  const UNEXPECTED_TYPE := "unexpected mutation type"

  /** The type assertion and the check, in the code's order: the check reads the builder's own mutation. */
  function Admit(check: Check, s: Stage): Result<Content, Error> {
    if s.arg.Some? && !s.arg.value.isMenu then Err(Message(UNEXPECTED_TYPE))
    else
      var verdict := Verdict(check, s.own);
      if verdict.Some? then Err(verdict.value) else Ok(Passed(s))
  }

  /** The specification a builder contributes, or why it does not. */
  function Ready(hooks: seq<Hook>, check: Check, k: nat, s: Stage): Result<Content, Error>
    requires k <= |hooks|
  {
    var end := Descend(hooks, k, s);
    if end.Err? then Err(end.error) else Admit(check, end.value)
  }

  /** The hooks after next, innermost first. */
  function Ascend(hooks: seq<Hook>, k: nat, node: Content): Option<Error>
    requires k <= |hooks|
    decreases |hooks| - k
  {
    if k == |hooks| then None
    else
      var inner := Ascend(hooks, k + 1, node);
      if inner.Some? then inner else After(hooks[k], node)
  }

  // ------------------------------------------------------ all builders, as values

  datatype Plan = Plan(hooks: seq<Hook>, check: Check, content: Content)

  function Spec(p: Plan): Result<Content, Error> {
    Ready(p.hooks, p.check, 0, Stage(p.content, None))
  }

  const ID_FIELD := "id"

  /** A node takes the id the database assigned, unless it has its own. */
  function Identified(node: Content, id: Option<string>): Content {
    if ID_FIELD in node || id.None? then node else node[ID_FIELD := id.value]
  }

  function IdOf(ids: seq<Option<string>>, i: nat): Option<string> {
    if i < |ids| then ids[i] else None
  }

  /** What becomes of one builder: its specification, or why there is none; the node once it is inserted; and
      what its hooks say about that node. */
  datatype Fate = Fate(spec: Result<Content, Error>, node: Content, late: Option<Error>)

  function FateOf(p: Plan, id: Option<string>): Fate {
    var spec := Spec(p);
    if spec.Err? then Fate(spec, map[], None)
    else Fate(spec, Identified(spec.value, id), Ascend(p.hooks, 0, Identified(spec.value, id)))
  }

  /** `ids` are what the database assigns to the inserted rows. */
  function Fates(plans: seq<Plan>, ids: seq<Option<string>>): (f: seq<Fate>)
    ensures |f| == |plans| && forall j | 0 <= j < |f| :: f[j] == FateOf(plans[j], IdOf(ids, j))
  {
    seq(|plans|, j requires 0 <= j < |plans| => FateOf(plans[j], IdOf(ids, j)))
  }

  /** What was set stays, what was not takes the default if there is one. */
  ghost predicate Filled(own: Content, defaults: Content, filled: Content) {
    && filled.Keys == own.Keys + defaults.Keys
    && forall key | key in filled :: filled[key] == if key in own then own[key] else defaults[key]
  }

  /** The builders with the defaults for what they do not set themselves. */
  function Defaulted(plans: seq<Plan>, defaults: Content): (p: seq<Plan>)
    ensures |p| == |plans|
    ensures forall j | 0 <= j < |p| :: p[j] == Plan(plans[j].hooks, plans[j].check, defaults + plans[j].content)
    ensures forall j | 0 <= j < |p| :: Filled(plans[j].content, defaults, p[j].content)
  {
    seq(|plans|, j requires 0 <= j < |plans| => Plan(plans[j].hooks, plans[j].check, defaults + plans[j].content))
  }

  /** The first builder that is not admitted, or the number of builders. */
  function FirstRejected(fates: seq<Fate>, i: nat): (k: nat)
    requires i <= |fates|
    ensures i <= k <= |fates|
    ensures forall j | i <= j < k :: fates[j].spec.Ok?
    ensures k < |fates| ==> fates[k].spec.Err?
    decreases |fates| - i
  {
    if i == |fates| || fates[i].spec.Err? then i else FirstRejected(fates, i + 1)
  }

  /** The last builder whose hooks fail after the insert, or None. */
  function LastFailing(fates: seq<Fate>, i: nat): (k: Option<nat>)
    requires i <= |fates|
    ensures k.Some? ==> i <= k.value < |fates| && fates[k.value].late.Some?
    ensures forall j | (if k.Some? then k.value + 1 else i) <= j < |fates| :: fates[j].late.None?
    decreases |fates| - i
  {
    if i == |fates| then None
    else
      var rest := LastFailing(fates, i + 1);
      if rest.Some? then rest else if fates[i].late.Some? then Some(i) else None
  }

  function SpecOr(f: Fate): Content {
    if f.spec.Ok? then f.spec.value else map[]
  }

  /** All specifications in builder order. */
  function Specs(fates: seq<Fate>): (s: seq<Content>)
    ensures |s| == |fates| && forall j | 0 <= j < |s| :: s[j] == SpecOr(fates[j])
  {
    seq(|fates|, j requires 0 <= j < |fates| => SpecOr(fates[j]))
  }

  // ------------------------------------------- what a builder's hooks amount to

  /** Hook `k` got `contents[k]` and passed on `contents[k + 1]`: the same mutation edited, or another one. */
  ghost predicate Handed(hooks: seq<Hook>, contents: seq<Content>, menu: seq<bool>, k: nat)
    requires k < |hooks| && |contents| == |menu| && k + 1 < |contents|
  {
    var move := hooks[k].before(contents[k]);
    || (move == InPlace(contents[k + 1]) && menu[k + 1] == menu[k])
    || move == Fresh(Draft(contents[k + 1], menu[k + 1]))
  }

  /** What the first `n` hooks passed on, one after the other, and whether it was of the right type. */
  ghost predicate Passes(hooks: seq<Hook>, contents: seq<Content>, menu: seq<bool>, n: nat)
    requires n <= |hooks|
  {
    && |contents| == |menu| == n + 1 && menu[0]
    && forall k | 0 <= k < n :: Handed(hooks, contents, menu, k)
  }

  /** The builder's own mutation at the end: the one that the first replacing hook received, or the last. */
  ghost predicate OwnIs(hooks: seq<Hook>, contents: seq<Content>, m: nat)
    requires |contents| == |hooks| + 1
  {
    && m <= |hooks|
    && (forall k | 0 <= k < m :: !hooks[k].before(contents[k]).Fresh?)
    && (m < |hooks| ==> hooks[m].before(contents[m]).Fresh?)
  }

  /** Where the pass stands after `n` hooks. */
  ghost predicate Stands(s: Stage, contents: seq<Content>, menu: seq<bool>, n: nat)
    requires n < |contents| == |menu|
  {
    Passed(s) == contents[n] && menu[n] == (s.arg.None? || s.arg.value.isMenu)
  }

  lemma HandedOn(hooks: seq<Hook>, contents: seq<Content>, menu: seq<bool>, k: nat, s: Stage)
    requires k < |hooks| && k + 1 < |contents| == |menu| && Handed(hooks, contents, menu, k) && Stands(s, contents, menu, k)
    ensures !Before(hooks[k], Passed(s)).Fail?
    ensures Stands(Advance(s, Before(hooks[k], Passed(s))), contents, menu, k + 1)
  {
  }

  lemma {:induction false} PassStands(hooks: seq<Hook>, contents: seq<Content>, menu: seq<bool>, n: nat, k: nat, s: Stage)
    returns (end: Stage)
    requires k <= n <= |hooks| && Passes(hooks, contents, menu, n) && Stands(s, contents, menu, k)
    ensures Descend(hooks, k, s) == Descend(hooks, n, end) && Stands(end, contents, menu, n)
    ensures s.arg.Some? ==> end.own == s.own
    ensures s.arg.None? && n == |hooks| ==> forall m | k <= m && OwnIs(hooks, contents, m) :: end.own == contents[m]
    decreases n - k
  {
    end := s;
    if k < n {
      assert Handed(hooks, contents, menu, k);
      HandedOn(hooks, contents, menu, k, s);
      end := PassStands(hooks, contents, menu, n, k + 1, Advance(s, Before(hooks[k], Passed(s))));
    }
  }

  /** What the hooks of one builder passed on, and at which place the builder's own mutation ended. */
  datatype Course = Course(contents: seq<Content>, menu: seq<bool>, own: nat)

  ghost predicate Follows(p: Plan, c: Course) {
    && Passes(p.hooks, c.contents, c.menu, |p.hooks|) && c.contents[0] == p.content
    && OwnIs(p.hooks, c.contents, c.own)
  }

  /** The specification of a builder: the type and then the check of its own mutation decide whether it is
      admitted, and what is inserted is what the last hook passed on. */
  lemma SpecMeans(p: Plan, c: Course)
    requires Follows(p, c)
    ensures Spec(p) ==
      if !c.menu[|p.hooks|] then Err(Message("unexpected mutation type"))
      else if p.check(c.contents[c.own]).Some? then Err(p.check(c.contents[c.own]).value)
      else Ok(c.contents[|p.hooks|])
  {
    var end := PassStands(p.hooks, c.contents, c.menu, |p.hooks|, 0, Stage(p.content, None));
  }

  /** A hook that fails before next ends it with its error. */
  lemma SpecFails(p: Plan, contents: seq<Content>, menu: seq<bool>, n: nat)
    requires n < |p.hooks| && Passes(p.hooks, contents, menu, n) && contents[0] == p.content
    requires p.hooks[n].before(contents[n]).Fail?
    ensures Spec(p) == Err(p.hooks[n].before(contents[n]).err)
  {
    var end := PassStands(p.hooks, contents, menu, n, 0, Stage(p.content, None));
  }

  /** There is no third case: the hooks pass something on to the end, or one of them fails. */
  lemma {:induction false} PassExists(hooks: seq<Hook>, content: Content, n: nat)
    returns (contents: seq<Content>, menu: seq<bool>, k: nat)
    requires n <= |hooks|
    ensures k <= n && Passes(hooks, contents, menu, k) && contents[0] == content
    ensures k < n ==> hooks[k].before(contents[k]).Fail?
  {
    if n == 0 {
      return [content], [true], 0;
    }
    contents, menu, k := PassExists(hooks, content, n - 1);
    if k == n - 1 && !hooks[k].before(contents[k]).Fail? {
      var move := hooks[k].before(contents[k]);
      var contents' := contents + [if move.Fresh? then move.draft.content else move.content];
      var menu' := menu + [if move.Fresh? then move.draft.isMenu else menu[k]];
      forall j | 0 <= j < n
        ensures Handed(hooks, contents', menu', j)
      {
        assert j < n - 1 ==> Handed(hooks, contents, menu, j);
      }
      contents, menu, k := contents', menu', n;
    }
  }

  /** After next the hooks speak in reverse order: the innermost one that fails is heard. */
  lemma {:induction false} AscendMeans(hooks: seq<Hook>, k: nat, node: Content)
    requires k <= |hooks|
    ensures Ascend(hooks, k, node).None? <==> forall j | k <= j < |hooks| :: hooks[j].after(node).None?
    ensures forall j | k <= j < |hooks| && hooks[j].after(node).Some? && (forall i | j < i < |hooks| :: hooks[i].after(node).None?) ::
      Ascend(hooks, k, node) == hooks[j].after(node)
    decreases |hooks| - k
  {
    if k < |hooks| {
      AscendMeans(hooks, k + 1, node);
    }
  }

  /** The node of an inserted builder: what was inserted, with the assigned id when it has none of its own; and
      what its hooks say about that node. */
  lemma FateMeans(p: Plan, id: Option<string>, c: Content)
    requires Spec(p) == Ok(c)
    ensures var node := if "id" in c || id.None? then c else c["id" := id.value];
      FateOf(p, id) == Fate(Ok(c), node, Ascend(p.hooks, 0, node))
  {
  }

  /** How the call of mutator `i` ends, when its own hooks still to return end with `tail`.
      `before` and `after` are the batches the driver has received, `done` the flags of the mutations. */
  ghost predicate Ends(fates: seq<Fate>, insertError: Option<Error>, i: nat, tail: Option<Error>, err: Option<Error>,
      before: seq<seq<Content>>, after: seq<seq<Content>>, done: seq<bool>)
    requires i < |fates| == |done|
  {
    var k := FirstRejected(fates, i);
    if k < |fates| then
      && err == Some(fates[k].spec.error) && after == before
      && (forall j | i <= j < |done| :: !done[j])
    else
      && after == before + [Specs(fates)]
      && if insertError.Some? then err == insertError && (forall j | i <= j < |done| :: !done[j])
         else
           var f := LastFailing(fates, i + 1);
           if f.Some? then
             && err == fates[f.value].late
             && (forall j | i <= j < |done| :: done[j] <==> j >= f.value)
           else err == tail && (forall j | i <= j < |done| :: done[j])
  }

  /** One core call around the rest of the chain. */
  lemma EndsStep(fates: seq<Fate>, insertError: Option<Error>, i: nat, inner: Option<Error>,
      before: seq<seq<Content>>, after: seq<seq<Content>>, done: seq<bool>, done': seq<bool>)
    requires i + 1 < |fates| == |done| == |done'| && fates[i].spec.Ok?
    requires Ends(fates, insertError, i + 1, fates[i + 1].late, inner, before, after, done)
    requires !done[i] && done' == done[i := inner.None?]
    ensures Ends(fates, insertError, i, None, inner, before, after, done')
  {
  }

  lemma EndsRejected(fates: seq<Fate>, insertError: Option<Error>, i: nat, before: seq<seq<Content>>, done: seq<bool>)
    requires i < |fates| == |done| && fates[i].spec.Err? && forall j | i <= j < |done| :: !done[j]
    ensures Ends(fates, insertError, i, None, Some(fates[i].spec.error), before, before, done)
  {
  }

  lemma EndsLast(fates: seq<Fate>, insertError: Option<Error>, i: nat, before: seq<seq<Content>>, done: seq<bool>)
    requires i + 1 == |fates| == |done| && fates[i].spec.Ok? && done[i] == insertError.None?
    ensures Ends(fates, insertError, i, None, insertError, before, before + [Specs(fates)], done)
  {
  }

  /** One hook around the mutators further in. */
  lemma EndsHook(fates: seq<Fate>, insertError: Option<Error>, i: nat, tail: Option<Error>, inner: Option<Error>, late: Option<Error>,
      before: seq<seq<Content>>, after: seq<seq<Content>>, done: seq<bool>)
    requires i < |fates| == |done| && Ends(fates, insertError, i, tail, inner, before, after, done)
    ensures Ends(fates, insertError, i, if tail.Some? then tail else late, if inner.Some? then inner else late, before, after, done)
  {
  }

  class SysMenuCreateBulk {
    const builders: seq<Builder>
    const recorded: Option<Error>           // an error of the builder itself
    const defaults: Content                 // the default values of the schema
    const answer: Option<DriverError>       // what the driver answers to a batch insert
    const ids: seq<Option<string>>          // the ids it assigns
    var specs: seq<Option<Content>>
    var nodes: seq<Option<Content>>
    var batches: seq<seq<Content>>          // the batch inserts the driver received

    constructor (builders: seq<Builder>, recorded: Option<Error>, defaults: Content, answer: Option<DriverError>,
        ids: seq<Option<string>>)
      ensures this.builders == builders && this.recorded == recorded && this.defaults == defaults
      ensures this.answer == answer && this.ids == ids && batches == []
    {
      this.builders, this.recorded, this.defaults, this.answer, this.ids := builders, recorded, defaults, answer, ids;
      specs, nodes, batches := [], [], [];
    }

    ghost predicate Valid()
      reads this
    {
      && |specs| == |nodes| == |builders|
      && (forall i, j | 0 <= i < j < |builders| :: builders[i] != builders[j])
    }

    ghost function Plans(): (p: seq<Plan>)
      reads builders
      ensures |p| == |builders|
    {
      seq(|builders|, j requires 0 <= j < |builders| reads builders =>
        Plan(builders[j].hooks, builders[j].check, builders[j].mutation))
    }

    ghost function Done(): (d: seq<bool>)
      reads builders
      ensures |d| == |builders|
    {
      seq(|builders|, j requires 0 <= j < |builders| reads builders => builders[j].done)
    }

    /** Builders before `i` have delivered, those after it are untouched, none is done. */
    ghost predicate Reached(fates: seq<Fate>, i: nat)
      requires Valid() && |fates| == |builders|
      reads this, builders
    {
      && (forall j | 0 <= j < i && j < |builders| :: fates[j].spec.Ok? && specs[j] == nodes[j] == Some(SpecOr(fates[j])))
      && (forall j | i < j < |builders| ::
            fates[j] == FateOf(Plan(builders[j].hooks, builders[j].check, builders[j].mutation), IdOf(ids, j)))
      && (forall j | 0 <= j < |builders| :: !builders[j].done)
      && (forall j | 0 <= j < |builders| :: fates[j].spec.Ok? ==> fates[j].node == Identified(SpecOr(fates[j]), IdOf(ids, j)))
    }

    /** The nodes from `i` on are inserted and have their ids; those before are still without. */
    ghost predicate Delivered(fates: seq<Fate>, i: nat)
      reads this
    {
      && (forall j | 0 <= j < i && j < |nodes| && j < |fates| :: nodes[j] == Some(SpecOr(fates[j])))
      && |nodes| == |fates| && forall j | i <= j < |fates| :: nodes[j] == Some(fates[j].node)
    }

    /** What the hooks of builder `i` from `k` on say after the insert. */
    ghost function Late(fates: seq<Fate>, i: nat, k: nat): Option<Error>
      requires i < |fates| == |builders| && k <= |builders[i].hooks|
    {
      if fates[i].spec.Ok? then Ascend(builders[i].hooks, k, fates[i].node) else None
    }

    /** The wrapped mutator of builder `i`, from hook `k` inwards. */
    method RunHook(i: nat, k: nat, arg: Option<Draft>, ghost fates: seq<Fate>) returns (err: Option<Error>)
      requires Valid() && i < |builders| == |fates| && k <= |builders[i].hooks| && Reached(fates, i)
      requires Ready(builders[i].hooks, builders[i].check, k, Stage(builders[i].mutation, arg)) == fates[i].spec
      modifies this, builders
      ensures Valid() && forall j | 0 <= j < i :: !builders[j].done
      ensures Ends(fates, Wrapped(answer), i, Late(fates, i, k), err, old(batches), batches, Done())
      ensures err.None? ==> Delivered(fates, i)
      decreases |builders| - i, |builders[i].hooks| - k, 2
    {
      if k == |builders[i].hooks| {
        err := Core(i, arg, fates);
        return;
      }
      var hook := builders[i].hooks[k];
      var x := if arg.Some? then arg.value.content else builders[i].mutation;
      var move := Before(hook, x);
      var passed := arg;
      match move {
        case Fail(e) =>
          EndsRejected(fates, Wrapped(answer), i, batches, Done());
          return Some(e);
        case InPlace(content) =>
          if arg.None? {
            builders[i].mutation := content;
          } else {
            passed := Some(Draft(content, arg.value.isMenu));
          }
        case Fresh(draft) =>
          passed := Some(draft);
      }
      err := Around(i, k, passed, fates);
    }

    /** The call of next by hook `k`, and what the hook does after it. */
    method Around(i: nat, k: nat, passed: Option<Draft>, ghost fates: seq<Fate>) returns (err: Option<Error>)
      requires Valid() && i < |builders| == |fates| && k < |builders[i].hooks| && Reached(fates, i)
      requires Ready(builders[i].hooks, builders[i].check, k + 1, Stage(builders[i].mutation, passed)) == fates[i].spec
      modifies this, builders
      ensures Valid() && forall j | 0 <= j < i :: !builders[j].done
      ensures Ends(fates, Wrapped(answer), i, Late(fates, i, k), err, old(batches), batches, Done())
      ensures err.None? ==> Delivered(fates, i)
      decreases |builders| - i, |builders[i].hooks| - k - 1, 3
    {
      err := RunHook(i, k + 1, passed, fates);
      ghost var inner, late := err, After(builders[i].hooks[k], fates[i].node);
      if err.None? {
        err := After(builders[i].hooks[k], nodes[i].value);
      }
      if fates[i].spec.Ok? {
        EndsHook(fates, Wrapped(answer), i, Late(fates, i, k + 1), inner, late, old(batches), batches, Done());
      }
    }

    /** The innermost mutator of builder `i`: check, specification, the rest of the chain, done. */
    method Core(i: nat, arg: Option<Draft>, ghost fates: seq<Fate>) returns (err: Option<Error>)
      requires Valid() && i < |builders| == |fates| && Reached(fates, i)
      requires Admit(builders[i].check, Stage(builders[i].mutation, arg)) == fates[i].spec
      modifies this, builders
      ensures Valid() && forall j | 0 <= j < i :: !builders[j].done
      ensures Ends(fates, Wrapped(answer), i, None, err, old(batches), batches, Done())
      ensures err.None? ==> Delivered(fates, i)
      decreases |builders| - i, 0, 1
    {
      err := Fill(i, arg, fates);
      if err.Some? {
        EndsRejected(fates, Wrapped(answer), i, batches, Done());
      } else if i < |builders| - 1 {
        err := Continue(i, fates);
      } else {
        err := Finish(i, fates);
      }
    }

    /** The type assertion, the check and the specification of builder `i`. */
    method Fill(i: nat, arg: Option<Draft>, ghost fates: seq<Fate>) returns (err: Option<Error>)
      requires Valid() && i < |builders| == |fates| && Reached(fates, i)
      requires Admit(builders[i].check, Stage(builders[i].mutation, arg)) == fates[i].spec
      modifies this`specs, this`nodes, builders[i]
      ensures Valid() && Reached(fates, i)
      ensures err == if fates[i].spec.Err? then Some(fates[i].spec.error) else None
      ensures err.None? ==> specs[i] == nodes[i] == Some(SpecOr(fates[i]))
    {
      if arg.Some? && !arg.value.isMenu {
        return Some(Message(UNEXPECTED_TYPE));
      }
      var verdict := Verdict(builders[i].check, builders[i].mutation);
      if verdict.Some? {
        return verdict;
      }
      if arg.Some? {
        builders[i].mutation := arg.value.content;
      }
      specs, nodes := specs[i := Some(builders[i].mutation)], nodes[i := Some(builders[i].mutation)];
      return None;
    }

    lemma ReachedNext(i: nat, fates: seq<Fate>)
      requires Valid() && i + 1 < |builders| == |fates| && Reached(fates, i)
      requires fates[i].spec.Ok? && specs[i] == nodes[i] == Some(SpecOr(fates[i]))
      ensures Reached(fates, i + 1) && Late(fates, i + 1, 0) == fates[i + 1].late
      ensures Ready(builders[i + 1].hooks, builders[i + 1].check, 0, Stage(builders[i + 1].mutation, None)) == fates[i + 1].spec
    {
    }

    /** After the insert: the node gets its id, and the mutation is done. */
    method MarkDone(i: nat, ok: bool)
      requires Valid() && i < |builders| && (ok ==> nodes[i].Some?)
      modifies this`nodes, builders[i]
      ensures Valid() && Done() == old(Done())[i := ok]
      ensures ok ==> nodes == old(nodes)[i := Some(Identified(old(nodes)[i].value, IdOf(ids, i)))]
    {
      if ok {
        nodes := nodes[i := Some(Identified(nodes[i].value, IdOf(ids, i)))];
      }
      builders[i].done := ok;
    }

    /** From a builder that is not the last: the next mutator, and the done mark if that returned no error. */
    method Continue(i: nat, ghost fates: seq<Fate>) returns (err: Option<Error>)
      requires Valid() && i + 1 < |builders| == |fates| && Reached(fates, i)
      requires fates[i].spec.Ok? && specs[i] == nodes[i] == Some(SpecOr(fates[i]))
      modifies this, builders
      ensures Valid() && forall j | 0 <= j < i :: !builders[j].done
      ensures Ends(fates, Wrapped(answer), i, None, err, old(batches), batches, Done())
      ensures err.None? ==> Delivered(fates, i)
      decreases |builders| - i, 0, 0
    {
      ReachedNext(i, fates);
      err := RunHook(i + 1, 0, None, fates);
      ghost var done := Done();
      MarkDone(i, err.None?);
      EndsStep(fates, Wrapped(answer), i, err, old(batches), batches, done, Done());
    }

    /** From the last builder: the one batch insert, and the done mark if the driver reported no error. */
    method Finish(i: nat, ghost fates: seq<Fate>) returns (err: Option<Error>)
      requires Valid() && i + 1 == |builders| == |fates| && Reached(fates, i)
      requires fates[i].spec.Ok? && specs[i] == nodes[i] == Some(SpecOr(fates[i]))
      modifies this, builders
      ensures Valid() && forall j | 0 <= j < i :: !builders[j].done
      ensures Ends(fates, Wrapped(answer), i, None, err, old(batches), batches, Done())
      ensures err.None? ==> Delivered(fates, i)
    {
      err := Insert(fates);
      MarkDone(i, err.None?);
      EndsLast(fates, Wrapped(answer), i, old(batches), Done());
    }

    /** The one batch insert. */
    method Insert(ghost fates: seq<Fate>) returns (err: Option<Error>)
      requires |specs| == |fates| && forall j | 0 <= j < |fates| :: specs[j] == Some(SpecOr(fates[j]))
      modifies this`batches
      ensures batches == old(batches) + [Specs(fates)] && err == Wrapped(answer)
    {
      var batch := seq(|specs|, j requires 0 <= j < |specs| reads this => if specs[j].Some? then specs[j].value else map[]);
      assert batch == Specs(fates);
      batches := batches + [batch];
      if answer.None? {
        return None;
      }
      return Some(if answer.value.constraint then ConstraintError(answer.value.msg) else Message(answer.value.msg));
    }

    /** Every builder takes the defaults for what it does not set itself. */
    method FillDefaults()
      requires forall i, j | 0 <= i < j < |builders| :: builders[i] != builders[j]
      modifies builders
      ensures Plans() == Defaulted(old(Plans()), defaults)
      ensures forall j | 0 <= j < |builders| :: Filled(old(builders[j].mutation), defaults, builders[j].mutation)
      ensures forall j | 0 <= j < |builders| :: builders[j].done == old(builders[j].done)
    {
      for i := 0 to |builders|
        invariant forall j | 0 <= j < |builders| ::
          builders[j].mutation == if j < i then defaults + old(builders[j].mutation) else old(builders[j].mutation)
        invariant forall j | 0 <= j < |builders| :: builders[j].done == old(builders[j].done)
      {
        builders[i].mutation := defaults + builders[i].mutation;
      }
    }

    /** Save.  A recorded error is all that happens; with no builder nothing does; otherwise the outcome is `Ends`
        for the first mutator, of the builders with their defaults. */
    method Save() returns (err: Option<Error>, saved: seq<Option<Content>>)
      requires forall i, j | 0 <= i < j < |builders| :: builders[i] != builders[j]
      requires forall j | 0 <= j < |builders| :: !builders[j].done
      modifies this, builders
      ensures recorded.Some? ==> err == recorded && batches == old(batches) && Plans() == old(Plans()) && Done() == old(Done())
      ensures recorded.None? && builders == [] ==> err == None && saved == [] && batches == old(batches)
      ensures recorded.None? && builders != [] ==>
        var fates := Fates(Defaulted(old(Plans()), defaults), ids);
        Ends(fates, Wrapped(answer), 0, fates[0].late, err, old(batches), batches, Done())
      ensures err == None ==> |saved| == |builders|
      ensures err == None ==> forall j | 0 <= j < |builders| ::
        saved[j] == Some(FateOf(Defaulted(old(Plans()), defaults)[j], IdOf(ids, j)).node)
    {
      if recorded.Some? {
        return recorded, [];
      }
      if builders == [] {
        return None, [];
      }
      FillDefaults();
      err := Chain(Fates(Plans(), ids));
      return err, if err.None? then nodes else [];
    }

    /** The mutators of all builders, started at the first. */
    method Chain(ghost fates: seq<Fate>) returns (err: Option<Error>)
      requires builders != [] && forall i, j | 0 <= i < j < |builders| :: builders[i] != builders[j]
      requires fates == Fates(Plans(), ids) && forall j | 0 <= j < |builders| :: !builders[j].done
      modifies this, builders
      ensures Ends(fates, Wrapped(answer), 0, fates[0].late, err, old(batches), batches, Done())
      ensures err == None ==> Delivered(fates, 0)
    {
      specs := seq(|builders|, _ => None);
      nodes := seq(|builders|, _ => None);
      assert fates[0] == FateOf(Plans()[0], IdOf(ids, 0));
      err := RunHook(0, 0, None, fates);
    }
  }

  /** What Ends means for a whole call: at most one batch, holding every specification in builder order; no
      batch and nothing marked done when some builder is rejected; everything done when there is no error. */
  lemma EndsMeans(fates: seq<Fate>, insertError: Option<Error>, err: Option<Error>,
      before: seq<seq<Content>>, after: seq<seq<Content>>, done: seq<bool>)
    requires |fates| == |done| > 0 && Ends(fates, insertError, 0, fates[0].late, err, before, after, done)
    ensures (exists j :: 0 <= j < |fates| && fates[j].spec.Err?) ==>
      err.Some? && after == before && forall j | 0 <= j < |done| :: !done[j]
    ensures (forall j | 0 <= j < |fates| :: fates[j].spec.Ok?) ==>
      after == before + [Specs(fates)] && (forall j | 0 <= j < |fates| :: fates[j].spec == Ok(Specs(fates)[j]))
    ensures err.None? <==>
      && (forall j | 0 <= j < |fates| :: fates[j].spec.Ok? && fates[j].late.None?) && insertError.None?
    ensures err.None? ==> forall j | 0 <= j < |done| :: done[j]
  {
    var k := FirstRejected(fates, 0);
    if k == |fates| {
      var f := LastFailing(fates, 1);
      assert f.Some? ==> fates[f.value].late.Some?;
    }
  }

  /** Admitted: of the right type, and its own mutation passes the check. */
  ghost predicate Admitted(p: Plan, c: Course)
    requires Follows(p, c)
  {
    c.menu[|p.hooks|] && p.check(c.contents[c.own]).None?
  }

  /** A whole call whose hooks all pass something on: if every builder is admitted, one batch is inserted that
      holds exactly what the last hook of each builder passed on; otherwise nothing is, and the call fails. */
  lemma BatchMeans(plans: seq<Plan>, ids: seq<Option<string>>, courses: seq<Course>, insertError: Option<Error>,
      err: Option<Error>, before: seq<seq<Content>>, after: seq<seq<Content>>, done: seq<bool>)
    requires |plans| == |courses| == |done| > 0 && forall j | 0 <= j < |plans| :: Follows(plans[j], courses[j])
    requires Ends(Fates(plans, ids), insertError, 0, Fates(plans, ids)[0].late, err, before, after, done)
    ensures if forall j | 0 <= j < |plans| :: Admitted(plans[j], courses[j]) then
        && |after| == |before| + 1 && after[..|before|] == before && |after[|before|]| == |plans|
        && forall j | 0 <= j < |plans| && Follows(plans[j], courses[j]) ::
          after[|before|][j] == courses[j].contents[|plans[j].hooks|]
      else
        after == before && err.Some?
  {
    var fates := Fates(plans, ids);
    EndsMeans(fates, insertError, err, before, after, done);
    forall j | 0 <= j < |plans|
      ensures fates[j].spec == Spec(plans[j])
      ensures fates[j].spec.Ok? <==> Admitted(plans[j], courses[j])
      ensures fates[j].spec.Ok? ==> fates[j].spec.value == courses[j].contents[|plans[j].hooks|]
    {
      SpecMeans(plans[j], courses[j]);
    }
  }

  // -------------------------------------------------------- what was checked

  /** A hook that only edits the mutation it is given. */
  ghost predicate KeepsMutation(h: Hook) {
    forall x :: !Before(h, x).Fresh?
  }

  lemma {:induction false} KeepingDescends(hooks: seq<Hook>, k: nat, s: Stage)
    requires k <= |hooks| && s.arg.None? && forall h | h in hooks :: KeepsMutation(h)
    ensures Descend(hooks, k, s).Ok? ==> Descend(hooks, k, s).value.arg.None?
    decreases |hooks| - k
  {
    if k < |hooks| {
      assert hooks[k] in hooks;
      var m := Before(hooks[k], Passed(s));
      if !m.Fail? {
        KeepingDescends(hooks, k + 1, Advance(s, m));
      }
    }
  }

  /** What the hooks of a builder hand on at last is of the right type and equals the builder's own mutation. */
  predicate HandsOnOwn(hooks: seq<Hook>, content: Content) {
    var end := Descend(hooks, 0, Stage(content, None));
    end.Ok? && (end.value.arg.None? || end.value.arg.value.isMenu) ==> Passed(end.value) == end.value.own
  }

  /** The content that is inserted for a builder, if any, has passed its check. */
  ghost predicate InsertsChecked(p: Plan) {
    Spec(p).Ok? ==> Verdict(p.check, Spec(p).value).None?
  }

  /** Rejects exactly one content. */
  function Rejecting(x: Content): Check {
    c => if c == x then Some(Message("rejected")) else None
  }

  /** Whatever the check, what is inserted has passed it: exactly when the hooks hand on the builder's own
      mutation or an equal one.  The check reads that own mutation before it is replaced. */
  lemma CheckedIff(hooks: seq<Hook>, content: Content)
    ensures (forall check :: InsertsChecked(Plan(hooks, check, content))) <==> HandsOnOwn(hooks, content)
  {
    var end := Descend(hooks, 0, Stage(content, None));
    if HandsOnOwn(hooks, content) {
      forall check
        ensures InsertsChecked(Plan(hooks, check, content))
      {
      }
    } else {
      ReplacedIsUnchecked(hooks, content);
    }
  }

  /** A check that the inserted content does not pass, when the hooks hand on something else. */
  lemma ReplacedIsUnchecked(hooks: seq<Hook>, content: Content)
    requires !HandsOnOwn(hooks, content)
    ensures var x := Passed(Descend(hooks, 0, Stage(content, None)).value);
      && Spec(Plan(hooks, Rejecting(x), content)) == Ok(x)
      && !InsertsChecked(Plan(hooks, Rejecting(x), content))
  {
    var end := Descend(hooks, 0, Stage(content, None)).value;
    assert Verdict(Rejecting(Passed(end)), end.own).None?;
    assert Verdict(Rejecting(Passed(end)), Passed(end)).Some?;
  }

  /** With hooks that only edit the mutation they are given, whatever is inserted has passed its check. */
  lemma InsertedIsChecked(p: Plan)
    requires forall h | h in p.hooks :: KeepsMutation(h)
    ensures InsertsChecked(p)
  {
    KeepingDescends(p.hooks, 0, Stage(p.content, None));
    CheckedIff(p.hooks, p.content);
  }

  // -------------------------------------------------------------- withHooks

  type Exec = Content -> Result<Content, Error>

  function Execute(exec: Exec, x: Content): Result<Content, Error> {
    exec(x)
  }

  const UNINITIALIZED_HOOK := "uninitialized hook"

  /** A mutator as withHooks builds it: the operation itself, or a hook around a mutator. */
  datatype Mutator = Core | Wrap(hook: Hook, next: Mutator)

  /** Calling a mutator: a hook acts, calls the next one, and acts again on what that returned. */
  function Invoke(mut: Mutator, s: Stage, exec: Exec): Result<Content, Error> {
    match mut
    case Core =>
      if s.arg.Some? && !s.arg.value.isMenu then Err(Message(UNEXPECTED_TYPE)) else Execute(exec, Passed(s))
    case Wrap(hook, next) =>
      var m := Before(hook, Passed(s));
      if m.Fail? then Err(m.err)
      else
        var r := Invoke(next, Advance(s, m), exec);
        if r.Err? then r
        else
          var err := After(hook, r.value);
          if err.Some? then Err(err.value) else r
  }

  /** One pass down the hooks in their order, the operation on what they handed on, one pass up in reverse. */
  function Mutate(hooks: seq<Hook>, k: nat, s: Stage, exec: Exec): Result<Content, Error>
    requires k <= |hooks|
  {
    var end := Descend(hooks, k, s);
    if end.Err? then Err(end.error)
    else if end.value.arg.Some? && !end.value.arg.value.isMenu then Err(Message(UNEXPECTED_TYPE))
    else
      var r := Execute(exec, Passed(end.value));
      if r.Err? then r
      else
        var err := Ascend(hooks, k, r.value);
        if err.Some? then Err(err.value) else r
  }

  /** The same, by what the hooks passed on: the operation gets the last content, and its node goes back up. */
  lemma MutateMeans(hooks: seq<Hook>, contents: seq<Content>, menu: seq<bool>, exec: Exec)
    requires Passes(hooks, contents, menu, |hooks|)
    ensures Mutate(hooks, 0, Stage(contents[0], None), exec) ==
      if !menu[|hooks|] then Err(Message("unexpected mutation type"))
      else if exec(contents[|hooks|]).Err? then exec(contents[|hooks|])
      else
        var late := Ascend(hooks, 0, exec(contents[|hooks|]).value);
        if late.Some? then Err(late.value) else exec(contents[|hooks|])
  {
    var end := PassStands(hooks, contents, menu, |hooks|, 0, Stage(contents[0], None));
  }

  /** A hook that fails before next keeps the operation from being executed. */
  lemma MutateFails(hooks: seq<Hook>, contents: seq<Content>, menu: seq<bool>, n: nat, exec: Exec)
    requires n < |hooks| && Passes(hooks, contents, menu, n) && hooks[n].before(contents[n]).Fail?
    ensures Mutate(hooks, 0, Stage(contents[0], None), exec) == Err(hooks[n].before(contents[n]).err)
  {
    var end := PassStands(hooks, contents, menu, n, 0, Stage(contents[0], None));
  }

  /** The first hook outermost. */
  function Nest(hooks: seq<Hook>, k: nat): Mutator
    requires k <= |hooks|
    decreases |hooks| - k
  {
    if k == |hooks| then Core else Wrap(hooks[k], Nest(hooks, k + 1))
  }

  /** Calling the nested mutators is the pass down and up. */
  lemma {:induction false} NestIsPass(hooks: seq<Hook>, k: nat, s: Stage, exec: Exec)
    requires k <= |hooks|
    ensures Invoke(Nest(hooks, k), s, exec) == Mutate(hooks, k, s, exec)
    decreases |hooks| - k
  {
    if k < |hooks| {
      var m := Before(hooks[k], Passed(s));
      if !m.Fail? {
        NestIsPass(hooks, k + 1, Advance(s, m), exec);
      }
    }
  }

  /** withHooks: the reverse loop wraps each hook around those after it; one nil hook and nothing is executed. */
  method WithHooks(hooks: seq<Option<Hook>>, content: Content, exec: Exec) returns (r: Result<Content, Error>)
    ensures hooks == [] ==> r == Execute(exec, content)
    ensures hooks != [] && None in hooks ==> r == Err(Message(UNINITIALIZED_HOOK))
    ensures hooks != [] && None !in hooks ==> r == Mutate(Unwrap(hooks), 0, Stage(content, None), exec)
  {
    if |hooks| == 0 {
      return Execute(exec, content);
    }
    var mut := Build(hooks);
    if mut.None? {
      return Err(Message(UNINITIALIZED_HOOK));
    }
    NestIsPass(Unwrap(hooks), 0, Stage(content, None), exec);
    r := Invoke(mut.value, Stage(content, None), exec);
  }

  /** The loop of withHooks, from the last hook to the first. */
  method Build(hooks: seq<Option<Hook>>) returns (mut: Option<Mutator>)
    ensures mut.None? <==> None in hooks
    ensures mut.Some? ==> mut.value == Nest(Unwrap(hooks), 0)
  {
    var built := Core;
    var i := |hooks|;
    while i > 0
      invariant 0 <= i <= |hooks| && None !in hooks[i..]
      invariant built == Nest(Unwrap(hooks[i..]), 0)
    {
      i := i - 1;
      if hooks[i].None? {
        return None;
      }
      UnwrapStep(hooks, i);
      NestTail(hooks[i].value, Unwrap(hooks[i + 1..]), 0);
      built := Wrap(hooks[i].value, built);
    }
    assert hooks[0..] == hooks;
    return Some(built);
  }

  lemma UnwrapStep(hooks: seq<Option<Hook>>, i: nat)
    requires i < |hooks| && hooks[i].Some? && None !in hooks[i + 1..]
    ensures None !in hooks[i..] && Unwrap(hooks[i..]) == [hooks[i].value] + Unwrap(hooks[i + 1..])
  {
    assert hooks[i..] == [hooks[i]] + hooks[i + 1..];
  }

  lemma {:induction false} NestTail(hook: Hook, hooks: seq<Hook>, k: nat)
    requires k <= |hooks|
    ensures Nest([hook] + hooks, k + 1) == Nest(hooks, k)
    decreases |hooks| - k
  {
    if k < |hooks| {
      NestTail(hook, hooks, k + 1);
    }
  }

  function Unwrap(hooks: seq<Option<Hook>>): (r: seq<Hook>)
    requires None !in hooks
    ensures |r| == |hooks| && forall i | 0 <= i < |r| :: hooks[i] == Some(r[i])
  {
    if hooks == [] then []
    else
      assert hooks[0] in hooks && hooks[0] != None;
      [hooks[0].value] + Unwrap(hooks[1..])
  }

  /** Use appends: hooks added later run inside the earlier ones, on the way down and on the way up. */
  lemma {:induction false} UseNests(outer: seq<Hook>, inner: seq<Hook>, k: nat, s: Stage, node: Content)
    requires k <= |outer|
    ensures var mid := Descend(outer, k, s);
      Descend(outer + inner, k, s) == if mid.Err? then mid else Descend(inner, 0, mid.value)
    ensures var below := Ascend(inner, 0, node);
      Ascend(outer + inner, k, node) == if below.Some? then below else Ascend(outer, k, node)
    decreases |outer| - k
  {
    if k < |outer| {
      var m := Before(outer[k], Passed(s));
      UseNests(outer, inner, k + 1, if m.Fail? then s else Advance(s, m), node);
    } else {
      SuffixChain(outer, inner, 0, s, node);
    }
  }

  lemma {:induction false} SuffixChain(outer: seq<Hook>, inner: seq<Hook>, k: nat, s: Stage, node: Content)
    requires k <= |inner|
    ensures Descend(outer + inner, |outer| + k, s) == Descend(inner, k, s)
    ensures Ascend(outer + inner, |outer| + k, node) == Ascend(inner, k, node)
    decreases |inner| - k
  {
    if k < |inner| {
      var m := Before(inner[k], Passed(s));
      SuffixChain(outer, inner, k + 1, if m.Fail? then s else Advance(s, m), node);
    }
  }
}
